/**
  * Assembling the supervised training set from completed regular-season games
  * (predictions/training.py): one 44-value feature row and three labels per
  * game, games without enough history skipped.
  */
module Training {
  import opened Wrappers
  import opened Store
  import opened Features

  /** Earlier weeks are left out of training: too little history for features. */
  const DefaultMinWeek: int := 4

  /** `season__in=seasons`, `week__gte=min_week`, `home_score__isnull=False`, `stage='REG'` */
  predicate Selectable(g: Game, seasons: seq<int>, minWeek: int) {
    g.season in seasons && g.week >= minWeek && g.homeScore.Some? && g.stage == "REG"
  }

  function FilterSelectable(gs: seq<Game>, seasons: seq<int>, minWeek: int): (r: seq<Game>)
    ensures forall g :: g in r <==> g in gs && Selectable(g, seasons, minWeek)
    decreases |gs|
  {
    if gs == [] then []
    else (if Selectable(gs[0], seasons, minWeek) then [gs[0]] else []) + FilterSelectable(gs[1..], seasons, minWeek)
  }

  /** The games the builder walks: the selectable ones, oldest first. */
  function SelectedGames(gs: seq<Game>, seasons: seq<int>, minWeek: int): (r: seq<Game>)
    ensures forall g :: g in r <==> g in gs && Selectable(g, seasons, minWeek)
    ensures SortedByDate(r, false)
  {
    var f := FilterSelectable(gs, seasons, minWeek);
    var r := SortByDate(f, false);
    assert forall g :: g in r <==> g in f by {
      forall g ensures g in r <==> g in f {
        assert g in r <==> g in multiset(r);
        assert g in f <==> g in multiset(f);
      }
    }
    r
  }

  /** The feature rows, the three label columns, and how many games were skipped. */
  datatype Dataset = Dataset(
    x: seq<seq<real>>,
    yWinner: seq<int>,
    ySpread: seq<int>,
    yTotal: seq<int>,
    skipped: nat)

  const EmptyDataset := Dataset([], [], [], [], 0)

  /** `1 if home_score > away_score else 0`: a tie is labelled as not a home win. */
  function HomeWin(home: int, away: int): (r: int)
    ensures 0 <= r <= 1
    ensures r == 1 <==> home - away > 0
  {
    if home > away then 1 else 0
  }

  /** What the builder asks of each game: its feature row, or why there is none. */
  type Extractor = Game -> Result<seq<real>, ExtractError>

  /** `build_game_features` with the extractor's window, as the builder calls it. */
  function FeaturesFor(db: Db, numGames: nat): (f: Extractor)
    ensures forall g :: f(g) == GameFeatures(db, g, numGames)
  {
    g => GameFeatures(db, g, numGames)
  }

  /**
    * One game of the loop: its features, or a skip on InsufficientDataError;
    * any other error, and the TypeError of a NULL away score in the labels,
    * ends the build.
    */
  function Step(acc: Dataset, g: Game, features: Result<seq<real>, ExtractError>): (r: Result<Dataset, ExtractError>)
    ensures r.Err? <==> (features.Err? && features.error != InsufficientData) ||
                        (features.Ok? && (g.homeScore.None? || g.awayScore.None?))
    ensures r.Err? && features.Err? ==> r.error == features.error
    ensures r.Err? && features.Ok? ==> r.error == ScoreTypeError
    ensures r.Ok? && features.Err? ==> r.value == acc.(skipped := acc.skipped + 1)
    ensures r.Ok? && features.Ok? ==>
              r.value.x == acc.x + [features.value] && r.value.skipped == acc.skipped &&
              r.value.yWinner == acc.yWinner + [HomeWin(g.homeScore.value, g.awayScore.value)] &&
              r.value.ySpread == acc.ySpread + [g.homeScore.value - g.awayScore.value] &&
              r.value.yTotal == acc.yTotal + [g.homeScore.value + g.awayScore.value]
  {
    match features
    case Err(InsufficientData) => Ok(acc.(skipped := acc.skipped + 1))
    case Err(e) => Err(e)
    case Ok(row) =>
      if g.homeScore.None? || g.awayScore.None? then Err(ScoreTypeError)
      else
        var home := g.homeScore.value;
        var away := g.awayScore.value;
        Ok(acc.(x := acc.x + [row],
                yWinner := acc.yWinner + [HomeWin(home, away)],
                ySpread := acc.ySpread + [home - away],
                yTotal := acc.yTotal + [home + away]))
  }

  /** The loop from `acc` over `gs`, stopping at the first error. */
  function Fold(features: Extractor, acc: Dataset, gs: seq<Game>): (r: Result<Dataset, ExtractError>)
    ensures r.Ok? ==> |r.value.x| + r.value.skipped == |acc.x| + acc.skipped + |gs|
    ensures r.Ok? ==> acc.x <= r.value.x && acc.skipped <= r.value.skipped
    decreases |gs|
  {
    if gs == [] then Ok(acc)
    else
      var next :- Step(acc, gs[0], features(gs[0]));
      Fold(features, next, gs[1..])
  }

  /** What `build` returns once its loop is done: `X.shape[1]` raises IndexError when no row was built. */
  function Finish(built: Result<Dataset, ExtractError>): Result<Dataset, ExtractError> {
    if built.Ok? && |built.value.x| == 0 then Err(NoRowsIndexError) else built
  }

  function Assemble(db: Db, games: seq<Game>, numGames: nat): Result<Dataset, ExtractError> {
    Finish(Fold(FeaturesFor(db, numGames), EmptyDataset, games))
  }

  /** The games of `gs` whose features build, in order. */
  function Usable(features: Extractor, gs: seq<Game>): (r: seq<Game>)
    ensures |r| <= |gs|
    ensures forall g :: g in r <==> g in gs && features(g).Ok?
    decreases |gs|
  {
    if gs == [] then []
    else (if features(gs[0]).Ok? then [gs[0]] else []) + Usable(features, gs[1..])
  }

  /** Row `i` of the dataset is game `used[i]`: its features and its three labels. */
  ghost predicate Explains(features: Extractor, d: Dataset, used: seq<Game>) {
    |d.x| == |used| && |d.yWinner| == |used| && |d.ySpread| == |used| && |d.yTotal| == |used| &&
    forall i :: 0 <= i < |used| ==>
      used[i].homeScore.Some? && used[i].awayScore.Some? &&
      features(used[i]) == Ok(d.x[i]) &&
      d.yWinner[i] == HomeWin(used[i].homeScore.value, used[i].awayScore.value) &&
      d.ySpread[i] == used[i].homeScore.value - used[i].awayScore.value &&
      d.yTotal[i] == used[i].homeScore.value + used[i].awayScore.value
  }

  /** A game whose row was appended extends the explanation by that game. */
  lemma ExplainsAppend(features: Extractor, acc: Dataset, used: seq<Game>, g: Game)
    requires Explains(features, acc, used)
    requires features(g).Ok? && Step(acc, g, features(g)).Ok?
    ensures Explains(features, Step(acc, g, features(g)).value, used + [g])
  {
    var next := Step(acc, g, features(g)).value;
    var used' := used + [g];
    forall i | 0 <= i < |used'|
      ensures used'[i].homeScore.Some? && used'[i].awayScore.Some? &&
              features(used'[i]) == Ok(next.x[i]) &&
              next.yWinner[i] == HomeWin(used'[i].homeScore.value, used'[i].awayScore.value) &&
              next.ySpread[i] == used'[i].homeScore.value - used'[i].awayScore.value &&
              next.yTotal[i] == used'[i].homeScore.value + used'[i].awayScore.value
    {
      if i < |used| {
        assert used'[i] == used[i];
        assert next.x[i] == acc.x[i];
        assert next.yWinner[i] == acc.yWinner[i];
        assert next.ySpread[i] == acc.ySpread[i];
        assert next.yTotal[i] == acc.yTotal[i];
      }
    }
  }

  /** What a completed fold leaves: the rows explain the usable games, and every other game was skipped. */
  lemma FoldShape(features: Extractor, acc: Dataset, used: seq<Game>, gs: seq<Game>, d: Dataset)
    requires Fold(features, acc, gs) == Ok(d)
    requires Explains(features, acc, used)
    ensures Explains(features, d, used + Usable(features, gs))
    ensures d.skipped == acc.skipped + |gs| - |Usable(features, gs)|
    ensures forall g :: g in gs ==> features(g).Ok? || features(g) == Err(InsufficientData)
  {
    FoldExplains(features, acc, used, gs, d);
    FoldSkips(features, acc, gs, d);
    FoldAccepts(features, acc, gs, d);
  }

  lemma {:induction false} FoldExplains(features: Extractor, acc: Dataset, used: seq<Game>, gs: seq<Game>, d: Dataset)
    requires Fold(features, acc, gs) == Ok(d)
    requires Explains(features, acc, used)
    ensures Explains(features, d, used + Usable(features, gs))
    decreases |gs|
  {
    if gs == [] {
      assert used + [] == used;
    } else {
      var g := gs[0];
      var next := Step(acc, g, features(g)).value;
      if features(g).Ok? {
        ExplainsAppend(features, acc, used, g);
        FoldExplains(features, next, used + [g], gs[1..], d);
        assert Usable(features, gs) == [g] + Usable(features, gs[1..]);
        assert (used + [g]) + Usable(features, gs[1..]) == used + ([g] + Usable(features, gs[1..]));
      } else {
        assert Usable(features, gs) == Usable(features, gs[1..]);
        assert next.x == acc.x && next.yWinner == acc.yWinner && next.ySpread == acc.ySpread && next.yTotal == acc.yTotal;
        FoldExplains(features, next, used, gs[1..], d);
      }
    }
  }

  lemma {:induction false} FoldSkips(features: Extractor, acc: Dataset, gs: seq<Game>, d: Dataset)
    requires Fold(features, acc, gs) == Ok(d)
    ensures d.skipped == acc.skipped + |gs| - |Usable(features, gs)|
    decreases |gs|
  {
    if gs != [] {
      var g := gs[0];
      var next := Step(acc, g, features(g)).value;
      FoldSkips(features, next, gs[1..], d);
      if features(g).Ok? {
        assert Usable(features, gs) == [g] + Usable(features, gs[1..]);
      } else {
        assert Usable(features, gs) == Usable(features, gs[1..]);
      }
    }
  }

  lemma {:induction false} FoldAccepts(features: Extractor, acc: Dataset, gs: seq<Game>, d: Dataset)
    requires Fold(features, acc, gs) == Ok(d)
    ensures forall g :: g in gs ==> features(g).Ok? || features(g) == Err(InsufficientData)
    decreases |gs|
  {
    if gs != [] {
      var g := gs[0];
      FoldAccepts(features, Step(acc, g, features(g)).value, gs[1..], d);
      assert forall h :: h in gs ==> h == g || h in gs[1..];
    }
  }

  /**
    * What the builder returns, when it returns: each row is a usable selected
    * game in date order, with its labels; every other selected game was skipped
    * for lack of history, and rows plus skips account for every selected game.
    */
  lemma AssembleShape(db: Db, games: seq<Game>, numGames: nat)
    requires Assemble(db, games, numGames).Ok?
    ensures var d := Assemble(db, games, numGames).value;
            var used := Usable(FeaturesFor(db, numGames), games);
            Explains(FeaturesFor(db, numGames), d, used) &&
            |d.x| + d.skipped == |games| && |d.x| > 0 &&
            forall g :: g in games ==> GameFeatures(db, g, numGames).Ok? || GameFeatures(db, g, numGames) == Err(InsufficientData)
  {
    FinishShape(FeaturesFor(db, numGames), games);
  }

  /** `AssembleShape` for any extractor. */
  lemma FinishShape(features: Extractor, games: seq<Game>)
    requires Finish(Fold(features, EmptyDataset, games)).Ok?
    ensures var d := Finish(Fold(features, EmptyDataset, games)).value;
            Explains(features, d, Usable(features, games)) &&
            |d.x| + d.skipped == |games| && |d.x| > 0 &&
            forall g :: g in games ==> features(g).Ok? || features(g) == Err(InsufficientData)
  {
    var d := Fold(features, EmptyDataset, games).value;
    FoldShape(features, EmptyDataset, [], games, d);
    assert [] + Usable(features, games) == Usable(features, games);
  }

  /**
    * The build raises IndexError exactly when its loop runs to the end
    * without any game whose features build: no game selected, or every one
    * skipped.
    */
  lemma NoRowsIffNothingUsable(db: Db, games: seq<Game>, numGames: nat)
    ensures Assemble(db, games, numGames) == Err(NoRowsIndexError) <==>
            Fold(FeaturesFor(db, numGames), EmptyDataset, games).Ok? && Usable(FeaturesFor(db, numGames), games) == []
  {
    var built := Fold(FeaturesFor(db, numGames), EmptyDataset, games);
    if built.Ok? {
      FoldExplains(FeaturesFor(db, numGames), EmptyDataset, [], games, built.value);
      assert [] + Usable(FeaturesFor(db, numGames), games) == Usable(FeaturesFor(db, numGames), games);
    } else {
      assert built.error != NoRowsIndexError by {
        FoldNeverNoRows(FeaturesFor(db, numGames), EmptyDataset, games);
      }
    }
  }

  /** The loop itself never raises the IndexError: only the extractors' and the labels' errors. */
  lemma {:induction false} FoldNeverNoRows(features: Extractor, acc: Dataset, gs: seq<Game>)
    requires forall g :: features(g) != Err(NoRowsIndexError)
    ensures Fold(features, acc, gs).Err? ==> Fold(features, acc, gs).error != NoRowsIndexError
    decreases |gs|
  {
    if gs != [] {
      var step := Step(acc, gs[0], features(gs[0]));
      if step.Ok? {
        FoldNeverNoRows(features, step.value, gs[1..]);
      }
    }
  }

  /** The three labels agree: a home win exactly when the spread is positive; total and spread have the same parity. */
  lemma LabelsAgree(features: Extractor, games: seq<Game>)
    requires Fold(features, EmptyDataset, games).Ok?
    ensures var d := Fold(features, EmptyDataset, games).value;
            |d.yWinner| == |d.ySpread| == |d.yTotal| &&
            forall i :: 0 <= i < |d.yWinner| ==>
              (d.yWinner[i] == 1 <==> d.ySpread[i] > 0) &&
              (d.yWinner[i] == 0 <==> d.ySpread[i] <= 0) &&
              (d.yTotal[i] - d.ySpread[i]) % 2 == 0
  {
    var d := Fold(features, EmptyDataset, games).value;
    FoldShape(features, EmptyDataset, [], games, d);
    var used := [] + Usable(features, games);
    forall i | 0 <= i < |d.yWinner|
      ensures (d.yTotal[i] - d.ySpread[i]) % 2 == 0
    {
      assert d.yTotal[i] - d.ySpread[i] == 2 * used[i].awayScore.value;
    }
  }

  /** One turn of the loop. */
  lemma FoldStep(features: Extractor, acc: Dataset, gs: seq<Game>)
    requires gs != []
    ensures Step(acc, gs[0], features(gs[0])).Err? ==> Fold(features, acc, gs) == Err(Step(acc, gs[0], features(gs[0])).error)
    ensures Step(acc, gs[0], features(gs[0])).Ok? ==> Fold(features, acc, gs) == Fold(features, Step(acc, gs[0], features(gs[0])).value, gs[1..])
  {
  }

  /**
    * `TrainingDataBuilder.build`: walks the selected games oldest first and
    * collects one row per game whose features build.
    */
  method Build(db: Db, seasons: seq<int>, numGames: nat, minWeek: int) returns (r: Result<Dataset, ExtractError>)
    ensures r == Assemble(db, SelectedGames(db.games, seasons, minWeek), numGames)
  {
    var games := SelectedGames(db.games, seasons, minWeek);
    ghost var extract := FeaturesFor(db, numGames);
    var data := EmptyDataset;
    var i := 0;
    assert games[0..] == games;
    while i < |games|
      invariant 0 <= i <= |games|
      invariant Fold(extract, data, games[i..]) == Fold(extract, EmptyDataset, games)
    {
      var game := games[i];
      FoldStep(extract, data, games[i..]);
      assert games[i..][0] == game && games[i..][1..] == games[i + 1..];
      var features := BuildGameFeatures(db, game, numGames);
      var next := AddGame(data, game, features);
      if next.Err? {
        return Err(next.error);
      }
      data := next.value;
      i := i + 1;
    }
    if |data.x| == 0 {
      // `X.shape[1]` of an empty array raises IndexError
      return Err(NoRowsIndexError);
    }
    r := Ok(data);
  }

  /** The body of the loop: skip on InsufficientDataError, stop on any other error, else append the row and labels. */
  method AddGame(data: Dataset, game: Game, features: Result<seq<real>, ExtractError>)
    returns (r: Result<Dataset, ExtractError>)
    ensures r == Step(data, game, features)
  {
    if features.Err? {
      if features.error == InsufficientData {
        return Ok(data.(skipped := data.skipped + 1));
      }
      return Err(features.error);
    }
    if game.homeScore.None? || game.awayScore.None? {
      // comparing a NULL score raises TypeError
      return Err(ScoreTypeError);
    }
    var homeWin := if game.homeScore.value > game.awayScore.value then 1 else 0;
    var spread := game.homeScore.value - game.awayScore.value;
    var total := game.homeScore.value + game.awayScore.value;
    r := Ok(data.(x := data.x + [features.value],
                  yWinner := data.yWinner + [homeWin],
                  ySpread := data.ySpread + [spread],
                  yTotal := data.yTotal + [total]));
  }

  /** `train_test_split_by_season`: the seasons before the test season, in input order, and the test season alone. */
  function TrainTestSplitBySeason(seasons: seq<int>, testSeason: int): (r: (seq<int>, seq<int>))
    ensures r.1 == [testSeason]
    ensures forall s :: s in r.0 <==> s in seasons && s < testSeason
    ensures testSeason !in r.0
    ensures |r.0| <= |seasons|
    ensures forall s :: multiset(r.0)[s] == if s < testSeason then multiset(seasons)[s] else 0
    decreases |seasons|
  {
    if seasons == [] then ([], [testSeason])
    else
      var rest := TrainTestSplitBySeason(seasons[1..], testSeason).0;
      assert seasons == [seasons[0]] + seasons[1..];
      ((if seasons[0] < testSeason then [seasons[0]] else []) + rest, [testSeason])
  }

  /**
    * The comprehension keeps the input order: the training seasons of a
    * list joined from two parts are those of the first part followed by those
    * of the second. With the multiset clause above, this fixes the training
    * list as the input with every season from the test season on removed.
    */
  lemma {:induction false} SplitAppend(a: seq<int>, b: seq<int>, testSeason: int)
    ensures TrainTestSplitBySeason(a + b, testSeason).0 ==
            TrainTestSplitBySeason(a, testSeason).0 + TrainTestSplitBySeason(b, testSeason).0
    decreases |a|
  {
    if a != [] {
      TailOfAppend(a, b);
      SplitAppend(a[1..], b, testSeason);
      var head := if a[0] < testSeason then [a[0]] else [];
      ConsAppend(TrainTestSplitBySeason(a + b, testSeason).0, TrainTestSplitBySeason(a[1..] + b, testSeason).0,
                 TrainTestSplitBySeason(a[1..], testSeason).0, TrainTestSplitBySeason(b, testSeason).0,
                 TrainTestSplitBySeason(a, testSeason).0, head);
    } else {
      assert a + b == b;
    }
  }

  /** One season alone is kept exactly when it comes before the test season. */
  lemma SplitSingle(season: int, testSeason: int)
    ensures TrainTestSplitBySeason([season], testSeason).0 == if season < testSeason then [season] else []
  {
    assert [season][1..] == [];
  }

  /** No season of the list comes before the test season: nothing to train on. */
  lemma {:induction false} SplitAllLater(seasons: seq<int>, testSeason: int)
    requires forall s :: s in seasons ==> s >= testSeason
    ensures TrainTestSplitBySeason(seasons, testSeason).0 == []
    decreases |seasons|
  {
    if seasons != [] {
      assert seasons[0] in seasons;
      assert forall s :: s in seasons[1..] ==> s in seasons;
      SplitAllLater(seasons[1..], testSeason);
    }
  }

  /** On a list of seasons in increasing order, the training seasons are exactly its prefix before the test season. */
  lemma {:induction false} SplitIsPrefix(seasons: seq<int>, testSeason: int)
    requires forall i, j :: 0 <= i < j < |seasons| ==> seasons[i] < seasons[j]
    ensures var train := TrainTestSplitBySeason(seasons, testSeason).0;
            train == seasons[..|train|] &&
            (|train| < |seasons| ==> seasons[|train|] >= testSeason)
    decreases |seasons|
  {
    if seasons != [] {
      var rest := TrainTestSplitBySeason(seasons[1..], testSeason).0;
      if seasons[0] >= testSeason {
        assert forall s :: s in seasons[1..] ==> s >= testSeason by {
          forall s | s in seasons[1..] ensures s >= testSeason {
            var j :| 0 <= j < |seasons[1..]| && seasons[1..][j] == s;
            assert seasons[0] < seasons[j + 1];
          }
        }
        SplitAllLater(seasons[1..], testSeason);
      } else {
        SplitIsPrefix(seasons[1..], testSeason);
        assert seasons == [seasons[0]] + seasons[1..];
      }
    }
  }

  /** Training on 2020 to 2023 and testing on 2024, the usage the source documents. */
  lemma SplitExample()
    ensures TrainTestSplitBySeason([2020, 2021, 2022, 2023, 2024], 2024) == ([2020, 2021, 2022, 2023], [2024])
  {
    var s := [2020, 2021, 2022, 2023, 2024];
    assert s[4..][1..] == [];
    assert s[3..][1..] == s[4..] == [2024];
    assert s[2..][1..] == s[3..] == [2023, 2024];
    assert s[1..][1..] == s[2..] == [2022, 2023, 2024];
    assert s[1..] == [2021, 2022, 2023, 2024];
    assert TrainTestSplitBySeason(s[4..], 2024).0 == [];
    assert TrainTestSplitBySeason(s[3..], 2024).0 == [2023];
    assert TrainTestSplitBySeason(s[2..], 2024).0 == [2022, 2023];
    assert TrainTestSplitBySeason(s[1..], 2024).0 == [2021, 2022, 2023];
    assert [2020] + [2021, 2022, 2023] == [2020, 2021, 2022, 2023];
    assert TrainTestSplitBySeason(s, 2024).0 == [2020, 2021, 2022, 2023];
  }
}
