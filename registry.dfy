/**
  * The table of trained model versions (predictions/models.py,
  * PredictionModelVersion): rows keyed by their version string, at most one
  * of them marked active.
  */
module Registry {

  /** One trained model version and its held-out metrics. */
  datatype ModelVersion = ModelVersion(
    version: string,
    createdAt: int,
    trainingSeasons: seq<int>,
    trainingSamples: int,
    winnerAccuracy: real,
    spreadMae: real,
    totalMae: real,
    winnerModelPath: string,
    spreadModelPath: string,
    totalModelPath: string,
    isActive: bool)

  /** A row as the field defaults leave it: inactive, no samples, zero metrics, blank paths. */
  function Blank(version: string, createdAt: int): (r: ModelVersion)
    ensures r.version == version && r.createdAt == createdAt
    ensures !r.isActive
    ensures r.trainingSeasons == [] && r.trainingSamples == 0
    ensures r.winnerAccuracy == 0.0 && r.spreadMae == 0.0 && r.totalMae == 0.0
    ensures r.winnerModelPath == "" && r.spreadModelPath == "" && r.totalModelPath == ""
  {
    ModelVersion(version, createdAt, [], 0, 0.0, 0.0, 0.0, "", "", "", false)
  }

  /** Each row is stored under its own version string, the primary key. */
  ghost predicate Keyed(rows: map<string, ModelVersion>) {
    forall v :: v in rows ==> rows[v].version == v
  }

  function ActiveVersions(rows: map<string, ModelVersion>): set<string> {
    set v | v in rows && rows[v].isActive
  }

  /** `objects.update(is_active=False)`: every row, and only its flag, cleared. */
  function Deactivated(rows: map<string, ModelVersion>): (r: map<string, ModelVersion>)
    ensures r.Keys == rows.Keys
    ensures forall v :: v in r ==> r[v] == rows[v].(isActive := false)
    ensures ActiveVersions(r) == {}
  {
    map v | v in rows :: rows[v].(isActive := false)
  }

  /** The table after `activate()` on the in-memory row `self`: all flags cleared, then `self` saved as active. */
  function Activated(rows: map<string, ModelVersion>, self: ModelVersion): (r: map<string, ModelVersion>)
    ensures r.Keys == rows.Keys + {self.version}
  {
    Deactivated(rows)[self.version := self.(isActive := true)]
  }

  /** After `activate()` the activated version is the one and only active row. */
  lemma ActivatedExactlyOne(rows: map<string, ModelVersion>, self: ModelVersion)
    ensures ActiveVersions(Activated(rows, self)) == {self.version}
    ensures |ActiveVersions(Activated(rows, self))| == 1
  {
    var r := Activated(rows, self);
    assert self.version in ActiveVersions(r);
  }

  /**
    * `activate()` on a row as it is stored changes only `is_active` flags: every
    * other field of every row is as before, and no row appears or disappears.
    */
  lemma ActivateChangesOnlyFlags(rows: map<string, ModelVersion>, self: ModelVersion)
    requires self.version in rows && rows[self.version] == self
    ensures Activated(rows, self).Keys == rows.Keys
    ensures forall v :: v in rows ==>
              Activated(rows, self)[v].(isActive := false) == rows[v].(isActive := false)
  {
  }

  /** Activating the same row twice leaves the table as activating it once. */
  lemma ActivateIdempotent(rows: map<string, ModelVersion>, self: ModelVersion)
    ensures Activated(Activated(rows, self), self) == Activated(rows, self)
    ensures Activated(Activated(rows, self), self.(isActive := true)) == Activated(rows, self)
  {
    var once := Activated(rows, self);
    var twice := Activated(once, self);
    assert twice.Keys == once.Keys;
    forall v | v in once ensures twice[v] == once[v] {
      if v != self.version {
        assert once[v] == rows[v].(isActive := false);
      }
    }
    var twice' := Activated(once, self.(isActive := true));
    assert twice'.Keys == once.Keys;
    forall v | v in once ensures twice'[v] == once[v] {
      if v != self.version {
        assert once[v] == rows[v].(isActive := false);
      }
    }
  }

  /** Inserting an inactive row under a new key keeps the set of active versions. */
  lemma InsertInactive(rows: map<string, ModelVersion>, row: ModelVersion)
    requires row.version !in rows && !row.isActive
    ensures ActiveVersions(rows[row.version := row]) == ActiveVersions(rows)
  {
    var r := rows[row.version := row];
    forall v | v in ActiveVersions(r) ensures v in ActiveVersions(rows) {
      assert v != row.version;
    }
  }

  /** The version table, stored rows keyed by version string. */
  class VersionRegistry {
    var rows: map<string, ModelVersion>

    ghost predicate Valid()
      reads this
    {
      Keyed(rows) && |ActiveVersions(rows)| <= 1
    }

    constructor()
      ensures Valid()
      ensures rows == map[]
    {
      rows := map[];
    }

    /**
      * `objects.create(...)`: inserts the row, or fails (IntegrityError) and
      * changes nothing when its version is already a key.
      */
    method Create(row: ModelVersion) returns (created: bool)
      modifies this
      ensures created <==> row.version !in old(rows)
      ensures created ==> rows == old(rows)[row.version := row]
      ensures !created ==> rows == old(rows)
      ensures old(Valid()) && !row.isActive ==> Valid()
    {
      if row.version in rows {
        return false;
      }
      if !row.isActive {
        InsertInactive(rows, row);
      }
      rows := rows[row.version := row];
      created := true;
    }

    /** `activate()`: clears every row's flag, then saves `self` as active. */
    method Activate(self: ModelVersion)
      modifies this
      ensures rows == Activated(old(rows), self)
      ensures old(Keyed(rows)) ==> Valid()
      ensures ActiveVersions(rows) == {self.version}
    {
      rows := Deactivated(rows);
      rows := rows[self.version := self.(isActive := true)];
      ActivatedExactlyOne(old(rows), self);
    }
  }
}
