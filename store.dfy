/**
  * The read-only game store the prediction pipeline queries: game rows
  * (games/models.py), per-team box-score rows (stats/models.py), and the
  * date ordering the queries ask the database for.
  */
module Store {
  import opened Wrappers

  type TeamId = int

  /** A calendar date, as a day number: the difference of two dates is a number of days. */
  type Day = int

  /** One scheduled game. Scores stay NULL until the game has been played. */
  datatype Game = Game(
    id: string,
    season: int,
    week: int,
    date: Day,
    homeTeam: TeamId,
    awayTeam: TeamId,
    stage: string,
    homeScore: Option<int>,
    awayScore: Option<int>,
    roof: string,
    temp: Option<int>,
    wind: Option<int>)

  /** One team's aggregate box score in one game (the columns the pipeline reads). */
  datatype TeamGameStat = TeamGameStat(
    team: TeamId,
    gameId: string,
    passAttempts: nat,
    passCompletions: nat,
    passYards: int,
    passTouchdowns: nat,
    rushAttempts: nat,
    rushYards: int,
    rushTouchdowns: nat,
    interceptions: nat,
    fumblesLost: nat,
    defSacks: nat,
    defInterceptions: nat,
    defFumblesForced: nat)

  /** The two tables, each in the order the database returns unordered rows. */
  datatype Db = Db(games: seq<Game>, stats: seq<TeamGameStat>)

  predicate Involves(g: Game, team: TeamId) {
    g.homeTeam == team || g.awayTeam == team
  }

  function Min(a: int, b: int): int {
    if a <= b then a else b
  }

  // ---------------------------------------------------------------------------
  // Ordering by date: `order_by('date')` and `order_by('-date')`.
  // Rows with equal dates keep the order they have in the store.
  // ---------------------------------------------------------------------------

  predicate InOrder(a: Game, b: Game, newestFirst: bool) {
    if newestFirst then a.date >= b.date else a.date <= b.date
  }

  ghost predicate SortedByDate(s: seq<Game>, newestFirst: bool) {
    forall i, j :: 0 <= i < j < |s| ==> InOrder(s[i], s[j], newestFirst)
  }

  /** A row that may precede every row of a sorted sequence may head it. */
  lemma {:induction false} SortedCons(x: Game, rest: seq<Game>, newestFirst: bool)
    requires SortedByDate(rest, newestFirst)
    requires forall y :: y in rest ==> InOrder(x, y, newestFirst)
    ensures SortedByDate([x] + rest, newestFirst)
  {
    var r := [x] + rest;
    forall i, j | 0 <= i < j < |r| ensures InOrder(r[i], r[j], newestFirst) {
      if i > 0 {
        assert r[i] == rest[i - 1] && r[j] == rest[j - 1];
      } else {
        assert r[j] == rest[j - 1];
        assert r[j] in rest;
      }
    }
  }

  /** Inserts `g` in front of the first row it may precede. */
  function Insert(g: Game, s: seq<Game>, newestFirst: bool): (r: seq<Game>)
    requires SortedByDate(s, newestFirst)
    ensures SortedByDate(r, newestFirst)
    ensures multiset(r) == multiset(s) + multiset{g}
    decreases |s|
  {
    if s == [] then [g]
    else if InOrder(g, s[0], newestFirst) then
      SortedCons(g, s, newestFirst);
      [g] + s
    else
      var rest := Insert(g, s[1..], newestFirst);
      assert s == [s[0]] + s[1..];
      assert forall y :: y in rest ==> InOrder(s[0], y, newestFirst) by {
        forall y | y in rest ensures InOrder(s[0], y, newestFirst) {
          assert y in multiset(rest);
          if y != g {
            assert y in multiset(s[1..]);
            var k :| 0 <= k < |s[1..]| && s[1..][k] == y;
            assert s[k + 1] == y;
          }
        }
      }
      SortedCons(s[0], rest, newestFirst);
      [s[0]] + rest
  }

  /** The rows of `s` in date order: a sorted permutation of `s`. */
  function SortByDate(s: seq<Game>, newestFirst: bool): (r: seq<Game>)
    ensures SortedByDate(r, newestFirst)
    ensures multiset(r) == multiset(s)
    ensures |r| == |s|
    decreases |s|
  {
    if s == [] then []
    else
      assert s == [s[0]] + s[1..];
      Insert(s[0], SortByDate(s[1..], newestFirst), newestFirst)
  }

  /** `queryset[:n]` */
  function Take<T>(s: seq<T>, n: nat): (r: seq<T>)
    ensures |r| == Min(n, |s|)
    ensures r == s[..|r|]
  {
    if n < |s| then s[..n] else s
  }

  /** In a newest-first sequence every row of a prefix is at least as new as every row after it. */
  lemma SortedPrefixNewer(s: seq<Game>, k: nat)
    requires SortedByDate(s, true) && k <= |s|
    ensures forall g, h :: g in s[..k] && h in s[k..] ==> h.date <= g.date
  {
    forall g, h | g in s[..k] && h in s[k..] ensures h.date <= g.date {
      var i :| 0 <= i < k && s[..k][i] == g;
      var j :| 0 <= j < |s| - k && s[k..][j] == h;
      assert s[i] == g && s[k + j] == h;
      assert InOrder(s[i], s[k + j], true);
    }
  }

  /** A prefix is part of the sequence, and what it leaves out is the rest. */
  lemma PrefixRest(s: seq<Game>, k: nat)
    requires k <= |s|
    ensures multiset(s[..k]) <= multiset(s)
    ensures multiset(s) - multiset(s[..k]) == multiset(s[k..])
  {
    assert s == s[..k] + s[k..];
  }

  /** The head of a newest-first sequence is no older than any of its rows. */
  lemma HeadIsNewest(s: seq<Game>, g: Game)
    requires SortedByDate(s, true) && g in s
    ensures g.date <= s[0].date
  {
    var j :| 0 <= j < |s| && s[j] == g;
    if j > 0 {
      assert InOrder(s[0], s[j], true);
    }
  }

  /** Dropping the head of `a + b` leaves the tail of `a` followed by `b`. */
  lemma TailOfAppend<T>(a: seq<T>, b: seq<T>)
    requires a != []
    ensures (a + b)[0] == a[0]
    ensures (a + b)[1..] == a[1..] + b
  {
  }

  /** Prepending the same head on both sides of `y == z + w`. */
  lemma ConsAppend<T>(x: seq<T>, y: seq<T>, z: seq<T>, w: seq<T>, v: seq<T>, h: seq<T>)
    requires x == h + y && y == z + w && v == h + z
    ensures x == v + w
  {
    assert h + (z + w) == (h + z) + w;
  }
}
