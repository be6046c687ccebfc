/**
  * The snake-draft order of a draft session (draft/models.py, DraftSession):
  * picks are numbered 1, 2, ... overall; round r holds picks
  * (r-1)*n+1 .. r*n for n teams; odd rounds run from team 1 to team n and
  * even rounds from team n back to team 1.
  *
  * Python's `//` and `%` floor; Dafny's are Euclidean. With a divisor of at
  * least 1, as here, the two agree on every dividend, negative ones included.
  */
module DraftRules {

  /**
    * `total_picks`: the last pick of the draft is the last pick of round
    * `numRounds`, and the pick after it would open a further round.
    */
  function TotalPicks(numTeams: int, numRounds: int): (total: int)
    ensures numTeams >= 1 ==> RoundOf(numTeams, total) == numRounds
    ensures numTeams >= 1 ==> RoundOf(numTeams, total + 1) == numRounds + 1
  {
    if numTeams >= 1 then
      PickAtInverse(numTeams, numRounds, numTeams - 1);
      PickAtInverse(numTeams, numRounds + 1, 0);
      assert PickAt(numTeams, numRounds, numTeams - 1) == numTeams * numRounds;
      numTeams * numRounds
    else
      numTeams * numRounds
  }

  /** The round an overall pick falls in, counted from 1: round r holds picks (r-1)*n+1 .. r*n. */
  function RoundOf(numTeams: int, pick: int): (r: int)
    requires numTeams >= 1
    ensures (r - 1) * numTeams < pick <= r * numTeams
  {
    var q, m := (pick - 1) / numTeams, (pick - 1) % numTeams;
    assert pick - 1 == q * numTeams + m;
    assert (q + 1) * numTeams == q * numTeams + numTeams;
    q + 1
  }

  /** The 0-based place of an overall pick within its round. */
  function PlaceInRound(numTeams: int, pick: int): (k: int)
    requires numTeams >= 1
    ensures 0 <= k < numTeams
  {
    (pick - 1) % numTeams
  }

  /** `get_team_for_pick`: the team, numbered from 1, that owns an overall pick. */
  function TeamForPick(numTeams: int, pick: int): (team: int)
    requires numTeams >= 1
    ensures 1 <= team <= numTeams
  {
    var k := PlaceInRound(numTeams, pick);
    if RoundOf(numTeams, pick) % 2 == 1 then k + 1 else numTeams - k
  }

  /** The overall number of the pick at 0-based place `k` of round `round`. */
  function PickAt(numTeams: int, round: int, k: int): int {
    (round - 1) * numTeams + k + 1
  }

  /** A positive multiple of `n` is at least `n`. */
  lemma MultipleAtLeast(x: int, n: int)
    requires x >= 1 && n >= 1
    ensures x * n >= n
  {
    assert x * n == (x - 1) * n + n;
    assert (x - 1) * n >= 0;
  }

  /** Multiplying by a positive number keeps the order. */
  lemma MulMonotone(a: int, b: int, n: int)
    requires a <= b && n >= 1
    ensures a * n <= b * n
  {
    assert b * n - a * n == (b - a) * n;
  }

  /** Quotient and remainder of `q*n + k` for `0 <= k < n`. */
  lemma DivModUnique(n: int, q: int, k: int)
    requires n >= 1 && 0 <= k < n
    ensures (q * n + k) / n == q
    ensures (q * n + k) % n == k
  {
    var a := q * n + k;
    var d, m := a / n, a % n;
    assert a == d * n + m;
    assert (d - q) * n == k - m by {
      assert (d - q) * n == d * n - q * n;
    }
    if d > q {
      MultipleAtLeast(d - q, n);
    } else if d < q {
      MultipleAtLeast(q - d, n);
    }
  }

  /** Pick `PickAt(n, round, k)` lies in round `round`, at place `k`. */
  lemma PickAtInverse(numTeams: int, round: int, k: int)
    requires numTeams >= 1 && 0 <= k < numTeams
    ensures RoundOf(numTeams, PickAt(numTeams, round, k)) == round
    ensures PlaceInRound(numTeams, PickAt(numTeams, round, k)) == k
  {
    DivModUnique(numTeams, round - 1, k);
  }

  /** Every pick is `PickAt` of its own round and place. */
  lemma PickDecomposes(numTeams: int, pick: int)
    requires numTeams >= 1
    ensures pick == PickAt(numTeams, RoundOf(numTeams, pick), PlaceInRound(numTeams, pick))
  {
  }

  /**
    * The k-th pick (from 0) of an odd round goes to team k+1; of an even
    * round, to team n-k.
    */
  lemma SnakeOrder(numTeams: int, round: int, k: int)
    requires numTeams >= 1 && 0 <= k < numTeams
    ensures round % 2 == 1 ==> TeamForPick(numTeams, PickAt(numTeams, round, k)) == k + 1
    ensures round % 2 == 0 ==> TeamForPick(numTeams, PickAt(numTeams, round, k)) == numTeams - k
  {
    PickAtInverse(numTeams, round, k);
  }

  /** The pick in round `round` that belongs to `team`: the inverse of `TeamForPick` within a round. */
  function PickOfTeam(numTeams: int, round: int, team: int): (pick: int)
    requires 1 <= team <= numTeams
    ensures RoundOf(numTeams, pick) == round
    ensures TeamForPick(numTeams, pick) == team
  {
    var k := if round % 2 == 1 then team - 1 else numTeams - team;
    SnakeOrder(numTeams, round, k);
    PickAtInverse(numTeams, round, k);
    PickAt(numTeams, round, k)
  }

  /** Two picks of one round that go to the same team are the same pick. */
  lemma RoundInjective(numTeams: int, p: int, q: int)
    requires numTeams >= 1
    requires RoundOf(numTeams, p) == RoundOf(numTeams, q)
    requires TeamForPick(numTeams, p) == TeamForPick(numTeams, q)
    ensures p == q
  {
    PickDecomposes(numTeams, p);
    PickDecomposes(numTeams, q);
  }

  /** The teams owning the picks of round `round`, in pick order. */
  function RoundTeams(numTeams: int, round: int): (teams: seq<int>)
    requires numTeams >= 1
    ensures |teams| == numTeams
  {
    seq(numTeams, k requires 0 <= k < numTeams => TeamForPick(numTeams, PickAt(numTeams, round, k)))
  }

  /**
    * Each round is a permutation of the teams: its n picks go to n distinct
    * teams, and every team 1..n owns one of them.
    */
  lemma RoundIsPermutation(numTeams: int, round: int)
    requires numTeams >= 1
    ensures forall i, j :: 0 <= i < j < numTeams ==> RoundTeams(numTeams, round)[i] != RoundTeams(numTeams, round)[j]
    ensures forall t :: 1 <= t <= numTeams <==> t in RoundTeams(numTeams, round)
  {
    var teams := RoundTeams(numTeams, round);
    forall i, j | 0 <= i < j < numTeams ensures teams[i] != teams[j] {
      var p, q := PickAt(numTeams, round, i), PickAt(numTeams, round, j);
      PickAtInverse(numTeams, round, i);
      PickAtInverse(numTeams, round, j);
      if teams[i] == teams[j] {
        RoundInjective(numTeams, p, q);
      }
    }
    forall t | 1 <= t <= numTeams ensures t in teams {
      var k := if round % 2 == 1 then t - 1 else numTeams - t;
      SnakeOrder(numTeams, round, k);
      assert teams[k] == t;
    }
  }

  /** The snake turn: the last pick of a round and the first of the next go to the same team. */
  lemma SnakeTurn(numTeams: int, round: int)
    requires numTeams >= 1
    ensures TeamForPick(numTeams, PickAt(numTeams, round, numTeams - 1)) ==
            TeamForPick(numTeams, PickAt(numTeams, round + 1, 0))
  {
    SnakeOrder(numTeams, round, numTeams - 1);
    SnakeOrder(numTeams, round + 1, 0);
  }

  /** A pick is one of the session's picks exactly when its round is one of the session's rounds. */
  lemma PicksWithinRounds(numTeams: int, numRounds: int, pick: int)
    requires numTeams >= 1
    ensures 1 <= pick <= TotalPicks(numTeams, numRounds) <==> 1 <= RoundOf(numTeams, pick) <= numRounds
  {
    var r, total := RoundOf(numTeams, pick), TotalPicks(numTeams, numRounds);
    if 1 <= r <= numRounds {
      MulMonotone(r, numRounds, numTeams);
      MulMonotone(0, r - 1, numTeams);
    }
    if 1 <= pick <= total {
      if r < 1 {
        MulMonotone(r, 0, numTeams);
      } else if r > numRounds {
        MulMonotone(numRounds, r - 1, numTeams);
      }
    }
  }

  /**
    * With two or more teams, a team owns two consecutive picks exactly at
    * the snake turn, when the first of them ends its round.
    */
  lemma ConsecutivePicks(numTeams: int, pick: int)
    requires numTeams >= 2
    ensures TeamForPick(numTeams, pick) == TeamForPick(numTeams, pick + 1) <==>
            PlaceInRound(numTeams, pick) == numTeams - 1
  {
    var r, k := RoundOf(numTeams, pick), PlaceInRound(numTeams, pick);
    PickDecomposes(numTeams, pick);
    if k == numTeams - 1 {
      assert pick + 1 == PickAt(numTeams, r + 1, 0);
      SnakeTurn(numTeams, r);
    } else {
      assert pick + 1 == PickAt(numTeams, r, k + 1);
      PickAtInverse(numTeams, r, k + 1);
      if TeamForPick(numTeams, pick) == TeamForPick(numTeams, pick + 1) {
        RoundInjective(numTeams, pick, pick + 1);
      }
    }
  }
}
