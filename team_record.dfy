/**
  * A team's season record as the team serializer reports it
  * (api/serializers.py, TeamWithRecordSerializer.get_record): the completed
  * games of one season, optionally only those before a simulated week,
  * counted as wins, losses and ties from the team's side and written
  * "W-L", or "W-L-T" when there was a tie.
  */
module TeamRecord {
  import opened Wrappers
  import opened Store

  /** The season used when the store holds no game at all. */
  const FallbackSeason: int := 2024

  // ---------------------------------------------------------------------------
  // Which season, which games
  // ---------------------------------------------------------------------------

  /** The latest season of a non-empty store. */
  function MaxSeason(games: seq<Game>): (s: int)
    requires |games| > 0
    ensures exists i :: 0 <= i < |games| && games[i].season == s
    ensures forall i :: 0 <= i < |games| ==> games[i].season <= s
  {
    if |games| == 1 then games[0].season
    else
      var rest := MaxSeason(games[1..]);
      assert forall i :: 1 <= i < |games| ==> games[i] == games[1..][i - 1];
      if games[0].season >= rest then games[0].season else rest
  }

  /**
    * The season from the context; when it is absent or the falsy 0, the
    * latest season in the store, or 2024 when the store is empty.
    */
  function ResolveSeason(context: Option<int>, games: seq<Game>): (s: int)
    ensures context.Some? && context.value != 0 ==> s == context.value
    ensures (context.None? || context.value == 0) && |games| == 0 ==> s == FallbackSeason
    ensures (context.None? || context.value == 0) && |games| > 0 ==>
              (exists i :: 0 <= i < |games| && games[i].season == s) &&
              (forall i :: 0 <= i < |games| ==> games[i].season <= s)
  {
    if context.Some? && context.value != 0 then context.value
    else if |games| == 0 then FallbackSeason
    else MaxSeason(games)
  }

  /** Both scores are known. */
  predicate Scored(g: Game) {
    g.homeScore.Some? && g.awayScore.Some?
  }

  predicate AllScored(games: seq<Game>) {
    forall i :: 0 <= i < |games| ==> Scored(games[i])
  }

  /**
    * A game counts toward the record when the team played in it, it belongs
    * to the season, both scores are known and, in simulation mode, it was
    * played before the simulated week.
    */
  predicate Counted(g: Game, team: TeamId, season: int, simulationWeek: Option<int>) {
    Involves(g, team) && g.season == season && Scored(g) &&
    (simulationWeek.Some? ==> g.week < simulationWeek.value)
  }

  /** The games that count, in store order. */
  function CountedGames(games: seq<Game>, team: TeamId, season: int, simulationWeek: Option<int>): (r: seq<Game>)
    ensures forall g :: g in r <==> g in games && Counted(g, team, season, simulationWeek)
    ensures |r| <= |games|
    ensures AllScored(r)
  {
    if |games| == 0 then []
    else
      var rest := CountedGames(games[1..], team, season, simulationWeek);
      assert forall g :: g in games <==> g == games[0] || g in games[1..];
      if Counted(games[0], team, season, simulationWeek) then [games[0]] + rest else rest
  }

  // ---------------------------------------------------------------------------
  // Counting
  // ---------------------------------------------------------------------------

  datatype Outcome = Win | Loss | Tie

  /** The result of a scored game from the team's side: home when it was the home team, otherwise away. */
  function OutcomeFor(g: Game, team: TeamId): Outcome
    requires Scored(g)
  {
    var (mine, theirs) := if g.homeTeam == team then (g.homeScore.value, g.awayScore.value)
                          else (g.awayScore.value, g.homeScore.value);
    if mine > theirs then Win else if mine < theirs then Loss else Tie
  }

  /** A win for one side of a game is a loss for the other, and a tie is a tie for both. */
  lemma OutcomesMirror(g: Game)
    requires Scored(g) && g.homeTeam != g.awayTeam
    ensures OutcomeFor(g, g.homeTeam) == Win <==> OutcomeFor(g, g.awayTeam) == Loss
    ensures OutcomeFor(g, g.homeTeam) == Loss <==> OutcomeFor(g, g.awayTeam) == Win
    ensures OutcomeFor(g, g.homeTeam) == Tie <==> OutcomeFor(g, g.awayTeam) == Tie
  {
  }

  datatype Record = Record(wins: nat, losses: nat, ties: nat)

  /** Adds one game's outcome to a record. */
  function Add(r: Record, o: Outcome): Record {
    match o
    case Win => r.(wins := r.wins + 1)
    case Loss => r.(losses := r.losses + 1)
    case Tie => r.(ties := r.ties + 1)
  }

  /** The record over a sequence of scored games, counted from the first to the last. */
  function Tally(games: seq<Game>, team: TeamId): (r: Record)
    requires AllScored(games)
    ensures r.wins + r.losses + r.ties == |games|
  {
    if |games| == 0 then Record(0, 0, 0)
    else
      var front := games[..|games| - 1];
      Add(Tally(front, team), OutcomeFor(games[|games| - 1], team))
  }

  /** How many of the games end with outcome `o` for the team. */
  function CountOutcome(games: seq<Game>, team: TeamId, o: Outcome): nat
    requires AllScored(games)
  {
    if |games| == 0 then 0
    else (if OutcomeFor(games[0], team) == o then 1 else 0) + CountOutcome(games[1..], team, o)
  }

  /** Counting one more game at the end. */
  lemma {:induction false} CountOutcomeSnoc(games: seq<Game>, team: TeamId, o: Outcome)
    requires |games| > 0 && AllScored(games)
    ensures CountOutcome(games, team, o) ==
            CountOutcome(games[..|games| - 1], team, o) + (if OutcomeFor(games[|games| - 1], team) == o then 1 else 0)
  {
    if |games| > 1 {
      var rest := games[1..];
      CountOutcomeSnoc(rest, team, o);
      assert rest[..|rest| - 1] == games[..|games| - 1][1..];
      assert rest[|rest| - 1] == games[|games| - 1];
    }
  }

  /** Each game adds to exactly one of the three counters: the record counts every outcome. */
  lemma {:induction false} TallyCounts(games: seq<Game>, team: TeamId)
    requires AllScored(games)
    ensures Tally(games, team).wins == CountOutcome(games, team, Win)
    ensures Tally(games, team).losses == CountOutcome(games, team, Loss)
    ensures Tally(games, team).ties == CountOutcome(games, team, Tie)
  {
    if |games| > 0 {
      TallyCounts(games[..|games| - 1], team);
      CountOutcomeSnoc(games, team, Win);
      CountOutcomeSnoc(games, team, Loss);
      CountOutcomeSnoc(games, team, Tie);
    }
  }

  // ---------------------------------------------------------------------------
  // The record string
  // ---------------------------------------------------------------------------

  function DigitChar(d: nat): char
    requires d < 10
  {
    "0123456789"[d]
  }

  predicate IsDigit(c: char) {
    '0' <= c <= '9'
  }

  /** `str(n)` for a natural number. */
  function NatToString(n: nat): (s: string)
    ensures |s| > 0
    ensures forall i :: 0 <= i < |s| ==> IsDigit(s[i])
  {
    if n < 10 then [DigitChar(n)] else NatToString(n / 10) + [DigitChar(n % 10)]
  }

  /** The value of a string of decimal digits. */
  function ParseNat(s: string): nat
    requires forall i :: 0 <= i < |s| ==> IsDigit(s[i])
  {
    if |s| == 0 then 0
    else
      var c := s[|s| - 1];
      assert IsDigit(c);
      ParseNat(s[..|s| - 1]) * 10 + (c as int - '0' as int)
  }

  /** Reading the digits back gives the number. */
  lemma {:induction false} ParseNatToString(n: nat)
    ensures ParseNat(NatToString(n)) == n
  {
    if n >= 10 {
      var s := NatToString(n);
      assert s[..|s| - 1] == NatToString(n / 10);
      ParseNatToString(n / 10);
    }
  }

  /** The record as text: "W-L-T" when there was a tie, otherwise "W-L". */
  function FormatRecord(r: Record): string {
    if r.ties > 0 then NatToString(r.wins) + "-" + NatToString(r.losses) + "-" + NatToString(r.ties)
    else NatToString(r.wins) + "-" + NatToString(r.losses)
  }

  /** The pieces of `s` between its '-' characters. */
  function Split(s: string): (parts: seq<string>)
    ensures |parts| >= 1
  {
    if |s| == 0 then [""]
    else if s[0] == '-' then [""] + Split(s[1..])
    else
      var rest := Split(s[1..]);
      [[s[0]] + rest[0]] + rest[1..]
  }

  predicate AllDigits(s: string) {
    |s| > 0 && forall i :: 0 <= i < |s| ==> IsDigit(s[i])
  }

  /** Splitting a string that starts with a dash-free piece. */
  lemma {:induction false} SplitAfterPiece(a: string, t: string)
    requires forall i :: 0 <= i < |a| ==> a[i] != '-'
    ensures Split(a + t) == [a + Split(t)[0]] + Split(t)[1..]
  {
    if |a| > 0 {
      assert (a + t)[1..] == a[1..] + t;
      SplitAfterPiece(a[1..], t);
      assert [a[0]] + (a[1..] + Split(t)[0]) == a + Split(t)[0];
    } else {
      assert a + t == t;
      assert a + Split(t)[0] == Split(t)[0];
      assert Split(t) == [Split(t)[0]] + Split(t)[1..];
    }
  }

  /** A digit string followed by a dash splits off as its own piece. */
  lemma SplitDigits(a: string, t: string)
    requires AllDigits(a)
    ensures Split(a + "-" + t) == [a] + Split(t)
  {
    assert a + "-" + t == a + ("-" + t);
    SplitAfterPiece(a, "-" + t);
    assert ("-" + t)[1..] == t;
    assert a + "" == a;
  }

  /** A digit string alone is one piece. */
  lemma SplitLast(a: string)
    requires AllDigits(a)
    ensures Split(a) == [a]
  {
    SplitAfterPiece(a, "");
    assert a + "" == a;
  }

  /** Reads "W-L" or "W-L-T" back into a record; a missing tie count reads as 0. */
  function ParseRecord(s: string): Option<Record> {
    var parts := Split(s);
    if |parts| == 2 && AllDigits(parts[0]) && AllDigits(parts[1]) then
      Some(Record(ParseNat(parts[0]), ParseNat(parts[1]), 0))
    else if |parts| == 3 && AllDigits(parts[0]) && AllDigits(parts[1]) && AllDigits(parts[2]) then
      Some(Record(ParseNat(parts[0]), ParseNat(parts[1]), ParseNat(parts[2])))
    else None
  }

  /** "W-L-T" splits into its three counts. */
  lemma SplitThree(w: string, l: string, t: string)
    requires AllDigits(w) && AllDigits(l) && AllDigits(t)
    ensures Split(w + "-" + l + "-" + t) == [w, l, t]
  {
    SplitLast(t);
    SplitDigits(l, t);
    assert w + "-" + l + "-" + t == w + "-" + (l + "-" + t);
    SplitDigits(w, l + "-" + t);
  }

  /** "W-L" splits into its two counts. */
  lemma SplitTwo(w: string, l: string)
    requires AllDigits(w) && AllDigits(l)
    ensures Split(w + "-" + l) == [w, l]
  {
    SplitLast(l);
    SplitDigits(w, l);
  }

  /**
    * The record string is unambiguous: it reads back as the record it was
    * written from, and it has a third count exactly when there was a tie.
    */
  lemma FormatRecordRoundTrip(r: Record)
    ensures ParseRecord(FormatRecord(r)) == Some(r)
    ensures |Split(FormatRecord(r))| == if r.ties > 0 then 3 else 2
  {
    var w, l, t := NatToString(r.wins), NatToString(r.losses), NatToString(r.ties);
    ParseNatToString(r.wins);
    ParseNatToString(r.losses);
    if r.ties > 0 {
      ParseNatToString(r.ties);
      SplitThree(w, l, t);
    } else {
      SplitTwo(w, l);
    }
  }

  // ---------------------------------------------------------------------------
  // The serializer method
  // ---------------------------------------------------------------------------

  /**
    * `get_record`: the season is resolved, the counted games are walked in
    * store order, and the three counters are written out.
    */
  method GetRecord(games: seq<Game>, team: TeamId, seasonContext: Option<int>, simulationWeek: Option<int>)
    returns (record: string)
    ensures var counted := CountedGames(games, team, ResolveSeason(seasonContext, games), simulationWeek);
            record == FormatRecord(Tally(counted, team))
  {
    var season := ResolveSeason(seasonContext, games);
    var counted := CountedGames(games, team, season, simulationWeek);
    var wins, losses, ties := 0, 0, 0;
    for i := 0 to |counted|
      invariant Record(wins, losses, ties) == Tally(counted[..i], team)
    {
      var g := counted[i];
      assert counted[..i + 1][..i] == counted[..i];
      assert Scored(g);
      var mine, theirs := 0, 0;
      if g.homeTeam == team {
        mine, theirs := g.homeScore.value, g.awayScore.value;
      } else {
        mine, theirs := g.awayScore.value, g.homeScore.value;
      }
      if mine > theirs {
        wins := wins + 1;
      } else if mine < theirs {
        losses := losses + 1;
      } else {
        ties := ties + 1;
      }
    }
    assert counted[..|counted|] == counted;
    record := FormatRecord(Record(wins, losses, ties));
  }

  /** Every counted game adds to exactly one counter: the three counts add up to the games counted. */
  lemma RecordCoversCounted(games: seq<Game>, team: TeamId, season: int, simulationWeek: Option<int>)
    ensures var counted := CountedGames(games, team, season, simulationWeek);
            var r := Tally(counted, team);
            r.wins + r.losses + r.ties == |counted| &&
            r.wins == CountOutcome(counted, team, Win) &&
            r.losses == CountOutcome(counted, team, Loss) &&
            r.ties == CountOutcome(counted, team, Tie)
  {
    TallyCounts(CountedGames(games, team, season, simulationWeek), team);
  }
}
