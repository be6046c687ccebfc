/**
  * The `train_model` management command
  * (predictions/management/commands/train_model.py): build the dataset,
  * abort on failure or on too few samples, train, save, record the version,
  * and activate it when asked.
  *
  * The trainer and the file system are outside the model: what `train`
  * returns (the metrics) and what `save` returns (the paths) are parameters.
  */
module TrainCommand {
  import opened Wrappers
  import opened Store
  import opened Features
  import opened Training
  import opened Registry

  /** Fewer rows than this and the command refuses to train. */
  const MinTrainingSamples: nat := 100

  /** The command-line options the pipeline reads. */
  datatype Options = Options(
    startSeason: int,
    endSeason: int,
    modelVersion: Option<string>,
    activate: bool,
    numGames: nat)

  datatype Metrics = Metrics(winnerAccuracy: real, spreadMae: real, totalMae: real)
  datatype SavedPaths = SavedPaths(winner: string, spread: string, total: string)

  /** The externally visible steps of a run, in the order they happen. */
  datatype Action =
    | BuildDataset(seasons: seq<int>)
    | TrainModels(samples: nat)
    | SaveModels(version: string)
    | RecordVersion(version: string)
    | ActivateVersion(version: string)

  /** How a run ends: one of the two early returns, the IntegrityError of a reused version, or done. */
  datatype Outcome = BuildFailed | TooFewSamples(samples: nat) | DuplicateVersion | Trained

  /** `range(start, end + 1)` */
  function SeasonRange(start: int, end: int): (r: seq<int>)
    ensures |r| == if end < start then 0 else end - start + 1
    ensures forall i :: 0 <= i < |r| ==> r[i] == start + i
    decreases end - start
  {
    if end < start then [] else [start] + SeasonRange(start + 1, end)
  }

  /** The training seasons are every season from the first to the last, both included. */
  lemma SeasonRangeMembers(start: int, end: int)
    ensures forall s :: s in SeasonRange(start, end) <==> start <= s <= end
  {
    var r := SeasonRange(start, end);
    forall s | start <= s <= end ensures s in r {
      assert r[s - start] == s;
    }
  }

  /** `options["model_version"] or <timestamp>`: an absent or empty version falls back on the stamp. */
  function ChooseVersion(option: Option<string>, stamp: string): (v: string)
    ensures option.Some? && option.value != "" ==> v == option.value
    ensures option.None? || option.value == "" ==> v == stamp
  {
    if option.Some? && option.value != "" then option.value else stamp
  }

  /**
    * The row `objects.create` inserts: the fields it is given, and `is_active`
    * at its default, so a freshly recorded version is inactive.
    */
  function VersionRecord(version: string, createdAt: int, seasons: seq<int>, samples: nat,
                         metrics: Metrics, paths: SavedPaths): (r: ModelVersion)
    ensures r.version == version && r.createdAt == createdAt && !r.isActive
    ensures r.trainingSeasons == seasons && r.trainingSamples == samples
    ensures r.winnerAccuracy == metrics.winnerAccuracy && r.spreadMae == metrics.spreadMae && r.totalMae == metrics.totalMae
    ensures r.winnerModelPath == paths.winner && r.spreadModelPath == paths.spread && r.totalModelPath == paths.total
  {
    Blank(version, createdAt).(
      trainingSeasons := seasons,
      trainingSamples := samples,
      winnerAccuracy := metrics.winnerAccuracy,
      spreadMae := metrics.spreadMae,
      totalMae := metrics.totalMae,
      winnerModelPath := paths.winner,
      spreadModelPath := paths.spread,
      totalModelPath := paths.total)
  }

  /** A run's ending, its steps, and the version table it leaves. */
  datatype Run = Run(outcome: Outcome, actions: seq<Action>, rows: map<string, ModelVersion>)

  /**
    * What one run of the command does, step by step: it always starts by
    * building the dataset, and it completes exactly when the build succeeded
    * with at least 100 rows under a version not yet recorded.
    */
  function Planned(built: Result<Dataset, ExtractError>, rows: map<string, ModelVersion>, opts: Options,
                   stamp: string, now: int, metrics: Metrics, paths: SavedPaths): (run: Run)
    ensures run.actions != [] && run.actions[0] == BuildDataset(SeasonRange(opts.startSeason, opts.endSeason))
    ensures run.outcome == Trained <==>
              built.Ok? && |built.value.x| >= MinTrainingSamples && ChooseVersion(opts.modelVersion, stamp) !in rows
    ensures run.outcome == DuplicateVersion <==>
              built.Ok? && |built.value.x| >= MinTrainingSamples && ChooseVersion(opts.modelVersion, stamp) in rows
  {
    var seasons := SeasonRange(opts.startSeason, opts.endSeason);
    var version := ChooseVersion(opts.modelVersion, stamp);
    var build := [BuildDataset(seasons)];
    if built.Err? then Run(BuildFailed, build, rows)
    else if |built.value.x| < MinTrainingSamples then Run(TooFewSamples(|built.value.x|), build, rows)
    else
      var samples := |built.value.x|;
      var saved := build + [TrainModels(samples), SaveModels(version)];
      if version in rows then Run(DuplicateVersion, saved, rows)
      else
        var record := VersionRecord(version, now, seasons, samples, metrics, paths);
        var recorded := rows[version := record];
        if opts.activate then
          Run(Trained, saved + [RecordVersion(version), ActivateVersion(version)], Activated(recorded, record))
        else
          Run(Trained, saved + [RecordVersion(version)], recorded)
  }

  /**
    * A failed build, or fewer than 100 rows, ends the run before anything is
    * trained, saved or recorded; a reused version ends it after the save,
    * with the table untouched.
    */
  lemma AbortsChangeNothing(built: Result<Dataset, ExtractError>, rows: map<string, ModelVersion>, opts: Options, stamp: string, now: int,
                            metrics: Metrics, paths: SavedPaths)
    ensures var run := Planned(built, rows, opts, stamp, now, metrics, paths);
            (run.outcome == BuildFailed <==> built.Err?) &&
            (run.outcome.TooFewSamples? <==> built.Ok? && |built.value.x| < MinTrainingSamples) &&
            (run.outcome != Trained ==> run.rows == rows) &&
            (run.outcome == BuildFailed || run.outcome.TooFewSamples? ==>
               run.actions == [BuildDataset(SeasonRange(opts.startSeason, opts.endSeason))])
  {
  }

  /**
    * Through the builder, a run never ends at the sample check with no rows:
    * when the loop (`looped`) built no row, `build` raises the IndexError and
    * the run ends at the build (`NoRowsIffNothingUsable` says when that is).
    */
  lemma EmptyBuildEndsAtBuild(looped: Result<Dataset, ExtractError>, rows: map<string, ModelVersion>, opts: Options,
                              stamp: string, now: int, metrics: Metrics, paths: SavedPaths)
    ensures var run := Planned(Finish(looped), rows, opts, stamp, now, metrics, paths);
            (run.outcome.TooFewSamples? ==> 0 < run.outcome.samples < MinTrainingSamples) &&
            (looped.Ok? && looped.value.x == [] ==>
               run.outcome == BuildFailed && run.actions == [BuildDataset(SeasonRange(opts.startSeason, opts.endSeason))])
  {
  }

  /** A version is recorded only after the models were trained on at least 100 rows and saved. */
  lemma RecordFollowsSave(built: Result<Dataset, ExtractError>, rows: map<string, ModelVersion>, opts: Options, stamp: string, now: int,
                          metrics: Metrics, paths: SavedPaths)
    ensures var run := Planned(built, rows, opts, stamp, now, metrics, paths);
            var version := ChooseVersion(opts.modelVersion, stamp);
            forall i :: 0 <= i < |run.actions| && run.actions[i].RecordVersion? ==>
              i == 3 && run.actions[1].TrainModels? && run.actions[1].samples >= MinTrainingSamples &&
              run.actions[2] == SaveModels(version) && run.actions[i].version == version
  {
  }

  /**
    * A completed run stores the new version with the row count, the seasons,
    * the metrics, the three paths and the creation time; it is active, and the
    * only active one, exactly when the flag was given. Without the flag every
    * older row is left as it was; with it, only their flags are cleared.
    */
  lemma TrainedRecord(built: Result<Dataset, ExtractError>, rows: map<string, ModelVersion>, opts: Options, stamp: string, now: int,
                      metrics: Metrics, paths: SavedPaths)
    requires Planned(built, rows, opts, stamp, now, metrics, paths).outcome == Trained
    ensures var run := Planned(built, rows, opts, stamp, now, metrics, paths);
            var version := ChooseVersion(opts.modelVersion, stamp);
            version !in rows && built.Ok? && version in run.rows &&
            run.rows[version].trainingSamples == |built.value.x| &&
            run.rows[version].trainingSeasons == SeasonRange(opts.startSeason, opts.endSeason) &&
            run.rows[version].winnerAccuracy == metrics.winnerAccuracy &&
            run.rows[version].spreadMae == metrics.spreadMae &&
            run.rows[version].totalMae == metrics.totalMae &&
            run.rows[version].winnerModelPath == paths.winner &&
            run.rows[version].spreadModelPath == paths.spread &&
            run.rows[version].totalModelPath == paths.total &&
            run.rows[version].version == version && run.rows[version].createdAt == now &&
            (run.rows[version].isActive <==> opts.activate) &&
            run.rows.Keys == rows.Keys + {version} &&
            (!opts.activate ==> forall v :: v in rows ==> run.rows[v] == rows[v]) &&
            (opts.activate ==> forall v :: v in rows ==> run.rows[v] == rows[v].(isActive := false)) &&
            (ActivateVersion(version) in run.actions <==> opts.activate) &&
            (opts.activate ==> ActiveVersions(run.rows) == {version}) &&
            (!opts.activate ==> ActiveVersions(run.rows) == ActiveVersions(rows))
  {
    var version := ChooseVersion(opts.modelVersion, stamp);
    var seasons := SeasonRange(opts.startSeason, opts.endSeason);
    var record := VersionRecord(version, now, seasons, |built.value.x|, metrics, paths);
    if opts.activate {
      ActivatedExactlyOne(rows[version := record], record);
    } else {
      InsertInactive(rows, record);
    }
  }

  /** `Command.handle` */
  method Handle(db: Db, registry: VersionRegistry, opts: Options, stamp: string, now: int,
                metrics: Metrics, paths: SavedPaths)
    returns (outcome: Outcome, actions: seq<Action>)
    modifies registry
    ensures Run(outcome, actions, registry.rows) ==
            Planned(Assemble(db, SelectedGames(db.games, SeasonRange(opts.startSeason, opts.endSeason), DefaultMinWeek), opts.numGames),
                    old(registry.rows), opts, stamp, now, metrics, paths)
    ensures old(registry.Valid()) ==> registry.Valid()
  {
    var seasons := SeasonRange(opts.startSeason, opts.endSeason);
    var built := Build(db, seasons, opts.numGames, DefaultMinWeek);
    outcome, actions := AfterBuild(built, registry, opts, stamp, now, metrics, paths);
  }

  /** The rest of `handle` once `build()` has returned or raised. */
  method AfterBuild(built: Result<Dataset, ExtractError>, registry: VersionRegistry, opts: Options, stamp: string,
                    now: int, metrics: Metrics, paths: SavedPaths)
    returns (outcome: Outcome, actions: seq<Action>)
    modifies registry
    ensures Run(outcome, actions, registry.rows) == Planned(built, old(registry.rows), opts, stamp, now, metrics, paths)
    ensures old(registry.Valid()) ==> registry.Valid()
  {
    var version := ChooseVersion(opts.modelVersion, stamp);
    var seasons := SeasonRange(opts.startSeason, opts.endSeason);
    actions := [BuildDataset(seasons)];
    if built.Err? {
      return BuildFailed, actions;
    }
    var samples := |built.value.x|;
    if samples < MinTrainingSamples {
      return TooFewSamples(samples), actions;
    }
    actions := actions + [TrainModels(samples), SaveModels(version)];
    var record := VersionRecord(version, now, seasons, samples, metrics, paths);
    var created := registry.Create(record);
    if !created {
      return DuplicateVersion, actions;
    }
    actions := actions + [RecordVersion(version)];
    if opts.activate {
      registry.Activate(record);
      actions := actions + [ActivateVersion(version)];
    }
    outcome := Trained;
  }
}
