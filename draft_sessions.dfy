/**
  * A fantasy draft session and the two endpoints that change it
  * (draft/models.py, draft/views.py): `create_session` validates the user's
  * draft position and opens an active session; `make_pick` checks its guards
  * in order, records the user's pick and advances the pick and round
  * counters.
  *
  * The AI drafting for the other teams is not part of this model: a session
  * here is as the user's endpoint leaves it, before the AI's turns.
  */
module DraftSessions {
  import opened Wrappers
  import opened DraftRules

  datatype Status = Setup | Active | Completed

  /** One row of the pick table. */
  datatype Pick = Pick(player: int, teamNumber: int, roundNumber: int, overallPick: int, isUser: bool)

  /** The table's two uniqueness constraints: no overall pick and no player occurs twice. */
  predicate UniquePicks(picks: seq<Pick>) {
    forall i, j :: 0 <= i < j < |picks| ==>
      picks[i].overallPick != picks[j].overallPick && picks[i].player != picks[j].player
  }

  /** Every recorded pick carries the round and the team the snake order gives its overall number. */
  predicate InSnakeOrder(numTeams: int, picks: seq<Pick>)
    requires numTeams >= 1
  {
    forall i :: 0 <= i < |picks| ==>
      picks[i].roundNumber == RoundOf(numTeams, picks[i].overallPick) &&
      picks[i].teamNumber == TeamForPick(numTeams, picks[i].overallPick)
  }

  predicate Drafted(picks: seq<Pick>, player: int) {
    exists i :: 0 <= i < |picks| && picks[i].player == player
  }

  /** What `make_pick` answers, one constructor per return. */
  datatype PickResponse =
    | SessionNotFound
    | NotActive
    | PlayerRequired
    | NotYourTurn
    | PlayerNotFound
    | AlreadyDrafted
    | Picked(pick: Pick)

  /** `not player_id`: absent, or the falsy id 0. */
  predicate Missing(playerId: Option<int>) {
    playerId.None? || playerId.value == 0
  }

  /** The user may pick exactly when the current pick belongs to the user's team. */
  predicate UsersTurn(numTeams: int, userTeamPosition: int, currentPick: int)
    requires numTeams >= 1
  {
    TeamForPick(numTeams, currentPick) == userTeamPosition
  }

  /**
    * The answer `make_pick` gives for a session in the given state, its guards
    * taken in the source's order; `players` holds the ids of the stored players.
    */
  function PickVerdict(status: Status, numTeams: int, userTeamPosition: int, currentPick: int,
                       picks: seq<Pick>, playerId: Option<int>, players: set<int>): (r: PickResponse)
    requires numTeams >= 1
    ensures r.Picked? <==>
              status == Active && !Missing(playerId) && UsersTurn(numTeams, userTeamPosition, currentPick) &&
              playerId.value in players && !Drafted(picks, playerId.value)
    ensures r.Picked? ==>
              r.pick == Pick(playerId.value, userTeamPosition, RoundOf(numTeams, currentPick), currentPick, true)
    ensures r.Picked? ==> r.pick.teamNumber == TeamForPick(numTeams, r.pick.overallPick)
    ensures r == NotActive <==> status != Active
    ensures r == PlayerRequired <==> status == Active && Missing(playerId)
    ensures r == NotYourTurn <==>
              status == Active && !Missing(playerId) && !UsersTurn(numTeams, userTeamPosition, currentPick)
    ensures r == PlayerNotFound <==>
              status == Active && !Missing(playerId) && UsersTurn(numTeams, userTeamPosition, currentPick) &&
              playerId.value !in players
    ensures r == AlreadyDrafted <==>
              status == Active && !Missing(playerId) && UsersTurn(numTeams, userTeamPosition, currentPick) &&
              playerId.value in players && Drafted(picks, playerId.value)
    ensures r != SessionNotFound
  {
    if status != Active then NotActive
    else if Missing(playerId) then PlayerRequired
    else if !UsersTurn(numTeams, userTeamPosition, currentPick) then NotYourTurn
    else if playerId.value !in players then PlayerNotFound
    else if Drafted(picks, playerId.value) then AlreadyDrafted
    else Picked(Pick(playerId.value, userTeamPosition, RoundOf(numTeams, currentPick), currentPick, true))
  }

  /** `create_session`'s check: the user's position must be one of the teams. */
  predicate ValidPosition(numTeams: int, userTeamPosition: int) {
    1 <= userTeamPosition <= numTeams
  }

  class DraftSession {
    const numTeams: int
    const numRounds: int
    const userTeamPosition: int
    const scoringFormat: string
    var currentRound: int
    var currentPick: int
    var status: Status
    var picks: seq<Pick>

    /**
      * A session as `create_session` and `make_pick` keep it: a valid user
      * position, the round in step with the pick counter, the table's
      * uniqueness constraints, every recorded pick already behind the
      * counter and owned by the team the snake order gives it.
      */
    ghost predicate Valid()
      reads this
    {
      ValidPosition(numTeams, userTeamPosition) &&
      currentRound == RoundOf(numTeams, currentPick) &&
      UniquePicks(picks) &&
      InSnakeOrder(numTeams, picks) &&
      (forall i :: 0 <= i < |picks| ==> picks[i].overallPick < currentPick)
    }

    /** `objects.create(..., status='active')`: the counters start at pick 1 of round 1. */
    constructor(numTeams: int, numRounds: int, userTeamPosition: int, scoringFormat: string)
      requires ValidPosition(numTeams, userTeamPosition)
      ensures Valid()
      ensures this.numTeams == numTeams && this.numRounds == numRounds
      ensures this.userTeamPosition == userTeamPosition && this.scoringFormat == scoringFormat
      ensures status == Active && currentPick == 1 && currentRound == 1 && picks == []
    {
      this.numTeams := numTeams;
      this.numRounds := numRounds;
      this.userTeamPosition := userTeamPosition;
      this.scoringFormat := scoringFormat;
      status := Active;
      currentPick := 1;
      currentRound := 1;
      picks := [];
    }

    /**
      * `make_pick` on this session: any failed guard answers with no change;
      * a pick is appended and the counters move on by one pick.
      */
    method MakePick(playerId: Option<int>, players: set<int>) returns (r: PickResponse)
      requires Valid()
      modifies this
      ensures r == PickVerdict(old(status), numTeams, userTeamPosition, old(currentPick), old(picks), playerId, players)
      ensures !r.Picked? ==> currentPick == old(currentPick) && currentRound == old(currentRound) && picks == old(picks)
      ensures r.Picked? ==> picks == old(picks) + [r.pick] && currentPick == old(currentPick) + 1
      ensures currentRound == RoundOf(numTeams, currentPick)
      ensures status == old(status)
      ensures Valid()
    {
      r := PickVerdict(status, numTeams, userTeamPosition, currentPick, picks, playerId, players);
      if !r.Picked? {
        return;
      }
      RecordKeepsUnique(picks, r.pick, currentPick);
      picks := picks + [r.pick];
      currentPick := currentPick + 1;
      currentRound := (currentPick - 1) / numTeams + 1;
    }
  }

  /**
    * Recording a pick at the counter, for a player not yet drafted, keeps
    * both uniqueness constraints and leaves every pick behind the advanced
    * counter.
    */
  lemma RecordKeepsUnique(picks: seq<Pick>, pick: Pick, currentPick: int)
    requires UniquePicks(picks)
    requires forall i :: 0 <= i < |picks| ==> picks[i].overallPick < currentPick
    requires pick.overallPick == currentPick && !Drafted(picks, pick.player)
    ensures UniquePicks(picks + [pick])
    ensures forall i :: 0 <= i < |picks + [pick]| ==> (picks + [pick])[i].overallPick < currentPick + 1
  {
    var after := picks + [pick];
    forall i, j | 0 <= i < j < |after|
      ensures after[i].overallPick != after[j].overallPick && after[i].player != after[j].player
    {
      if j == |picks| {
        assert after[i] == picks[i];
        assert picks[i].player != pick.player;
      }
    }
  }

  /** `create_session`: a position outside 1..num_teams is refused and no session is created. */
  method CreateSession(numTeams: Option<int>, numRounds: Option<int>, userTeamPosition: Option<int>,
                       scoringFormat: Option<string>)
    returns (session: DraftSession?)
    ensures var n := if numTeams.Some? then numTeams.value else 10;
            var pos := if userTeamPosition.Some? then userTeamPosition.value else 1;
            session == null <==> !ValidPosition(n, pos)
    ensures session != null ==>
              fresh(session) && session.Valid() &&
              session.numTeams == (if numTeams.Some? then numTeams.value else 10) &&
              session.numRounds == (if numRounds.Some? then numRounds.value else 15) &&
              session.userTeamPosition == (if userTeamPosition.Some? then userTeamPosition.value else 1) &&
              session.scoringFormat == (if scoringFormat.Some? then scoringFormat.value else "PPR") &&
              session.status == Active && session.currentPick == 1 && session.currentRound == 1 &&
              session.picks == []
  {
    var n := if numTeams.Some? then numTeams.value else 10;
    var rounds := if numRounds.Some? then numRounds.value else 15;
    var pos := if userTeamPosition.Some? then userTeamPosition.value else 1;
    var format := if scoringFormat.Some? then scoringFormat.value else "PPR";
    if !(1 <= pos <= n) {
      return null;
    }
    session := new DraftSession(n, rounds, pos, format);
  }

  /**
    * `make_pick` on the session stored under the request's key, or 404 when
    * there is none; the stored session is left as `MakePick` leaves it.
    */
  method MakePickRequest(session: DraftSession?, playerId: Option<int>, players: set<int>)
    returns (r: PickResponse)
    requires session != null ==> session.Valid()
    modifies session
    ensures session == null <==> r == SessionNotFound
    ensures session != null ==>
              r == PickVerdict(old(session.status), session.numTeams, session.userTeamPosition,
                               old(session.currentPick), old(session.picks), playerId, players)
    ensures session != null ==>
              session.Valid() && session.status == old(session.status) &&
              session.picks == (if r.Picked? then old(session.picks) + [r.pick] else old(session.picks)) &&
              session.currentPick == old(session.currentPick) + (if r.Picked? then 1 else 0) &&
              session.currentRound == RoundOf(session.numTeams, session.currentPick)
  {
    if session == null {
      return SessionNotFound;
    }
    r := session.MakePick(playerId, players);
  }
}
