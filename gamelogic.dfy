/** The rules engine's state and its operations: a registry of live games
    that hands out consecutive IDs, and the operations on one game. A game is
    a value (a `Rules.Game` record) kept in the registry's map; every
    operation that updates a game record in place replaces that record. */
module GameLogic {
  import opened Rules

  /** The first two loops of `calculateResults`: every remaining player's
      slot starts at 0, then each remaining voter, in order, assigns its own
      strength to the slot of its target. */
  method ScoreTable(g: Game) returns (score: map<PlayerId, int>)
    ensures forall q :: q in g.remainingPlayers ==> q in score && score[q] == Score(g, q)
  {
    var remaining := g.remainingPlayers;
    score := map[];
    for i := 0 to |remaining|
      invariant forall q :: q in remaining[..i] ==> q in score && score[q] == 0
    {
      assert forall q :: q in remaining[..i + 1] ==> q in remaining[..i] || q == remaining[i];
      score := score[remaining[i] := 0];
    }
    assert remaining[..|remaining|] == remaining;
    for i := 0 to |remaining|
      invariant forall q :: q in remaining ==> q in score && score[q] == ScoreAfter(g, remaining[..i], q)
    {
      var voter := remaining[i];
      assert remaining[..i + 1][..i] == remaining[..i];
      score := score[Target(g, voter) := Strength(g, voter)];
    }
  }

  /** The rest of `calculateResults`: find the top score, collect the
      losers and filter the remaining players. */
  method ComputeTally(g: Game) returns (losers: seq<PlayerId>, survivors: seq<PlayerId>)
    ensures losers == Losers(g)
    ensures survivors == SurvivorsAmong(g, g.remainingPlayers, losers)
  {
    var remaining := g.remainingPlayers;
    var score := ScoreTable(g);
    // the original keeps `winner = {playerID, score}`; only its score is read
    var top := 0;
    for i := 0 to |remaining|
      invariant top == MaxScoreAmong(g, remaining[..i])
    {
      MaxScoreStep(g, remaining, i);
      if score[remaining[i]] > top {
        top := score[remaining[i]];
      }
    }
    assert remaining[..|remaining|] == remaining;
    losers := [];
    for i := 0 to |remaining|
      invariant losers == LosersAmong(g, remaining[..i], top)
    {
      LosersStep(g, remaining, i, top);
      if score[remaining[i]] == top {
        losers := losers + [remaining[i]];
      }
    }
    survivors := [];
    for i := 0 to |remaining|
      invariant survivors == SurvivorsAmong(g, remaining[..i], losers)
    {
      var p := remaining[i];
      SurvivorsStep(g, remaining, i, losers);
      var missed := VotedForLoser(g, p, losers);
      if !(missed || p in losers) {
        survivors := survivors + [p];
      }
    }
  }

  /** `votedForLoser`: true when `p`'s ballot does NOT name any of `losers`. */
  method VotedForLoser(g: Game, p: PlayerId, losers: seq<PlayerId>) returns (result: bool)
    ensures result <==> !NamedLoser(g, p, losers)
  {
    result := true;
    for i := 0 to |losers|
      invariant result <==> !(p in g.votes && g.votes[p] in losers[..i])
    {
      assert losers[..i + 1] == losers[..i] + [losers[i]];
      if p in g.votes && g.votes[p] == losers[i] {
        result := false;
      }
    }
    assert losers[..|losers|] == losers;
  }

  // ---------------------------------------------------------------------------
  // The registry (the module-level state of gameLogic.js)

  class Registry {
    /** `gameIdCounter`: the ID the next game gets. */
    var counter: nat
    var games: map<GameId, Game>
    /** The profile directory (the module's `players` object). */
    var profiles: map<PlayerId, Profile>

    ghost predicate Valid()
      reads this
    {
      && counter >= 1
      && (forall id :: id in games ==> 1 <= id < counter && Wf(games[id]))
    }

    constructor ()
      ensures Valid()
      ensures counter == 1 && games == map[] && profiles == map[]
    {
      counter := 1;
      games := map[];
      profiles := map[];
    }

    method CreateGame(creator: PlayerId) returns (id: GameId)
      requires Valid()
      modifies this
      ensures Valid()
      ensures id == old(counter) && counter == old(counter) + 1
      ensures id !in old(games)
      ensures games == old(games)[id := Game(WaitingForPlayers, creator, [creator], map[creator := 1],
                                             [creator], map[], [], false, false)]
      ensures profiles == old(profiles)
    {
      id := counter;
      counter := counter + 1;
      games := games[id := Game(WaitingForPlayers, creator, [creator], map[creator := 1],
                                [creator], map[], [], false, false)];
    }

    method StartGame(id: GameId)
      requires Valid() && id in games
      modifies this
      ensures Valid()
      ensures games == old(games)[id := old(games[id]).(state := Round1, votingAllowed := true)]
      ensures counter == old(counter) && profiles == old(profiles)
    {
      games := games[id := games[id].(state := Round1, votingAllowed := true)];
    }

    method NewRound(id: GameId)
      requires Valid() && id in games
      modifies this
      ensures Valid()
      ensures games == old(games)[id := old(games[id]).(votingAllowed := true)]
      ensures counter == old(counter) && profiles == old(profiles)
    {
      games := games[id := games[id].(votingAllowed := true)];
    }

    /** A live game has an ID the counter has passed; no game ever has the
        ID 0, which the original's truthiness tests read as "no game". */
    predicate IsGameAvailable(id: GameId): (r: bool)
      reads this
      ensures Valid() && (id == 0 || id >= counter) ==> !r
    {
      id in games
    }

    /** A player of a game always has a vote strength of at least one. */
    predicate IsPlayerPlaying(id: GameId, p: PlayerId): (r: bool)
      reads this
      requires id in games
      ensures Valid() && r ==> p in games[id].voteStrength && Strength(games[id], p) >= 1
    {
      p in games[id].players
    }

    /** Appends `p` to the players and the remaining players and sets its
        strength to 1; there is no guard against a player joining twice. */
    method AddPlayer(id: GameId, p: PlayerId)
      requires Valid() && id in games
      modifies this
      ensures Valid()
      ensures games == old(games)[id := Join(old(games[id]), p)]
      ensures counter == old(counter) && profiles == old(profiles)
    {
      JoinKeepsWf(games[id], p);
      games := games[id := Join(games[id], p)];
    }

    method SetPlayerInfo(p: PlayerId, info: Profile)
      requires Valid()
      modifies this
      ensures Valid()
      ensures profiles == old(profiles)[p := info]
      ensures games == old(games) && counter == old(counter)
    {
      profiles := profiles[p := info];
    }

    /** Records `voter`'s ballot, overwriting an earlier one, iff voting is open. */
    method Vote(id: GameId, voter: PlayerId, target: PlayerId) returns (accepted: bool)
      requires Valid() && id in games
      modifies this
      ensures Valid()
      ensures accepted == old(games[id].votingAllowed)
      ensures games == if accepted then old(games)[id := old(games[id]).(votes := old(games[id]).votes[voter := target])]
                       else old(games)
      ensures counter == old(counter) && profiles == old(profiles)
    {
      if games[id].votingAllowed {
        var g := games[id];
        games := games[id := g.(votes := g.votes[voter := target])];
        accepted := true;
      } else {
        accepted := false;
      }
    }

    method StopVoting(id: GameId)
      requires Valid() && id in games
      modifies this
      ensures Valid()
      ensures games == old(games)[id := old(games[id]).(votingAllowed := false)]
      ensures counter == old(counter) && profiles == old(profiles)
    {
      games := games[id := games[id].(votingAllowed := false)];
    }

    /** Fewer than three remaining players make a duel round; a round with
        a sole survivor is one too, which is why the "new round" handler
        asks `IsWinner` first. */
    predicate IsDuelRound(id: GameId): (r: bool)
      reads this
      requires id in games
      ensures IsWinner(id) ==> r
      ensures !r ==> |games[id].remainingPlayers| >= 3
    {
      |games[id].remainingPlayers| < 3
    }

    /** The sole survivor of a round is one of the game's players. */
    predicate IsWinner(id: GameId): (r: bool)
      reads this
      requires id in games
      ensures Valid() && r ==> |games[id].remainingPlayers| == 1 && games[id].remainingPlayers[0] in games[id].players
    {
      |games[id].remainingPlayers| == 1
    }

    method WinnerOfCurrentRound(id: GameId) returns (winner: PlayerId)
      requires Valid() && id in games && |games[id].remainingPlayers| > 0
      modifies this
      ensures Valid()
      ensures winner == old(games[id].remainingPlayers[0])
      ensures games == old(games)[id := CrownRoundWinner(old(games[id]))]
      ensures counter == old(counter) && profiles == old(profiles)
    {
      var g := games[id];
      winner := g.remainingPlayers[0];
      CrownKeepsWf(g);
      games := games[id := CrownRoundWinner(g)];
    }

    method CalculateResults(id: GameId) returns (losers: seq<PlayerId>)
      requires Valid() && id in games
      modifies this
      ensures Valid()
      ensures losers == Losers(old(games[id]))
      ensures games == old(games)[id := AfterTally(old(games[id]))]
      ensures counter == old(counter) && profiles == old(profiles)
    {
      var g := games[id];
      TallyEliminates(g);
      var survivors;
      losers, survivors := ComputeTally(g);
      games := games[id := g.(remainingPlayers := survivors, votes := map[])];
    }

    method StartDuel(id: GameId) returns (duelists: seq<PlayerId>)
      requires Valid() && id in games
      modifies this
      ensures Valid()
      ensures duelists == old(games[id].remainingPlayers)
      ensures games == old(games)[id := old(games[id]).(votingAllowed := true)]
      ensures counter == old(counter) && profiles == old(profiles)
    {
      games := games[id := games[id].(votingAllowed := true)];
      duelists := games[id].remainingPlayers;
    }

    method DuelRoundAnswer(id: GameId, sender: PlayerId, answer: string) returns (result: DuelResult)
      requires Valid() && id in games && sender in games[id].players
      modifies this
      ensures Valid()
      ensures var (g', r) := Duel(old(games[id]), sender, answer);
        games == old(games)[id := g'] && result == r
      ensures counter == old(counter) && profiles == old(profiles)
    {
      var g := games[id];
      DuelKeepsWf(g, sender, answer);
      var (g', r) := Duel(g, sender, answer);
      games := games[id := g'];
      result := r;
    }

    /** The remaining players, in order, whose strength reached the
        threshold; empty (the original's `false`) when there are none. */
    method GameOver(id: GameId) returns (winners: seq<PlayerId>)
      requires id in games
      ensures winners == GameWinners(games[id])
    {
      var remaining := games[id].remainingPlayers;
      winners := [];
      for i := 0 to |remaining|
        invariant winners == WinnersAmong(games[id], remaining[..i])
      {
        var player := remaining[i];
        WinnersStep(games[id], remaining, i);
        if Lookup(games[id].voteStrength, player) >= WinningStrength {
          winners := winners + [player];
        }
      }
      assert remaining[..|remaining|] == remaining;
    }

    method StopGame(id: GameId)
      requires Valid()
      modifies this
      ensures Valid()
      ensures games == old(games) - {id} && !IsGameAvailable(id)
      ensures counter == old(counter) && profiles == old(profiles)
    {
      games := games - {id};
    }
  }

  /** A fresh registry numbers its games 1, 2, 3 in creation order, and the
      third game starts with only its creator. */
  method FirstThreeGames(a: PlayerId, b: PlayerId, c: PlayerId) returns (i: GameId, j: GameId, k: GameId, third: Game)
    ensures i == 1 && j == 2 && k == 3
    ensures third.players == [c] && third.remainingPlayers == [c] && third.voteStrength == map[c := 1]
    ensures third.votes == map[] && third.duelBallots == [] && !third.duelToggle
  {
    var r := new Registry();
    i := r.CreateGame(a);
    j := r.CreateGame(b);
    k := r.CreateGame(c);
    third := r.games[k];
  }
}
