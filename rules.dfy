/** The rules of the game as pure definitions over a game record: the
    elimination tally of a standard round, the duel's payoff matrix, the
    round winner and the game-over test, with the lemmas about them. */
module Rules {

  type PlayerId = string
  type GameId = nat

  /** The property name a JavaScript object uses for an `undefined` key: a
      remaining player who has not voted assigns their strength to this slot. */
  const Undefined: PlayerId := "undefined"

  /** The two duel answers the payoff matrix knows. */
  const Friendly: string := "friendly"
  const Hostile: string := "hostile"

  /** A remaining player with at least this vote strength wins the game. */
  const WinningStrength: int := 3

  datatype State = WaitingForPlayers | Round1

  /** One recorded duel answer. */
  datatype Ballot = Ballot(sender: PlayerId, answer: string)

  /** The record the registry keeps per game. */
  datatype Game = Game(
    state: State,
    creator: PlayerId,
    players: seq<PlayerId>,
    voteStrength: map<PlayerId, int>,
    remainingPlayers: seq<PlayerId>,
    votes: map<PlayerId, PlayerId>,
    duelBallots: seq<Ballot>,
    duelToggle: bool,
    votingAllowed: bool)

  /** The display-name part of a player's profile. */
  datatype Profile = Profile(firstName: string, lastName: string)

  /** What a duel answer returns: `Pending` is the original's `false`,
      `NoOutcome` its empty (but truthy) result object. */
  datatype DuelResult =
    | Pending
    | OneWins(winner: PlayerId, loser: PlayerId)
    | BothWin(first: PlayerId, second: PlayerId)
    | BothLose(first: PlayerId, second: PlayerId)
    | NoOutcome

  predicate NoDup<T(==)>(s: seq<T>) {
    forall i, j :: 0 <= i < j < |s| ==> s[i] != s[j]
  }

  lemma NoDupSnoc<T>(s: seq<T>, x: T)
    ensures NoDup(s) && x !in s ==> NoDup(s + [x])
  {
  }

  /** `idx` holds strictly increasing positions of `s` at which `r` can be
      read off, one position per element of `r`. */
  ghost predicate Picks(r: seq<PlayerId>, s: seq<PlayerId>, idx: seq<nat>) {
    && |idx| == |r|
    && (forall k :: 0 <= k < |idx| ==> idx[k] < |s| && s[idx[k]] == r[k])
    && (forall k, l :: 0 <= k < l < |idx| ==> idx[k] < idx[l])
  }

  /** `r` is `s` with some elements left out and the rest in their order. */
  ghost predicate IsSubsequence(r: seq<PlayerId>, s: seq<PlayerId>) {
    exists idx :: Picks(r, s, idx)
  }

  /** Leaving out a new last element of `s` keeps a subsequence. */
  lemma SubsequenceSkip(r: seq<PlayerId>, s: seq<PlayerId>, x: PlayerId)
    requires IsSubsequence(r, s)
    ensures IsSubsequence(r, s + [x])
  {
    var idx: seq<nat> :| Picks(r, s, idx);
    assert Picks(r, s + [x], idx);
  }

  /** Keeping a new last element of `s` extends a subsequence by it. */
  lemma SubsequenceTake(r: seq<PlayerId>, s: seq<PlayerId>, x: PlayerId)
    requires IsSubsequence(r, s)
    ensures IsSubsequence(r + [x], s + [x])
  {
    var idx: seq<nat> :| Picks(r, s, idx);
    var idx': seq<nat> := idx + [|s|];
    assert forall k :: 0 <= k < |idx| ==> idx'[k] == idx[k];
    assert Picks(r + [x], s + [x], idx');
  }

  /** The invariant every game record keeps. */
  ghost predicate Wf(g: Game) {
    && (forall p :: p in g.remainingPlayers ==> p in g.players)
    && (forall p :: p in g.players ==> p in g.voteStrength && g.voteStrength[p] >= 1)
    && |g.duelBallots| <= 1
    && (g.duelToggle <==> |g.duelBallots| == 1)
    && (forall b :: b in g.duelBallots ==> b.sender in g.players)
  }

  // ---------------------------------------------------------------------------
  // Vote strength

  /** The strength recorded for `p`; 0 stands for a missing entry, which the
      invariant keeps from ever being read. */
  function Lookup(s: map<PlayerId, int>, p: PlayerId): (r: int) {
    if p in s then s[p] else 0
  }

  function Strength(g: Game, p: PlayerId): (r: int) {
    Lookup(g.voteStrength, p)
  }

  /** `voteStrength[p]++` */
  function Strengthen(s: map<PlayerId, int>, p: PlayerId): (r: map<PlayerId, int>) {
    s[p := Lookup(s, p) + 1]
  }

  /** `if (voteStrength[p] > 1) voteStrength[p]--` */
  function Weaken(s: map<PlayerId, int>, p: PlayerId): (r: map<PlayerId, int>) {
    if Lookup(s, p) > 1 then s[p := s[p] - 1] else s
  }

  // ---------------------------------------------------------------------------
  // The tally of a standard round

  /** The player whose score slot `p`'s ballot writes to. */
  function Target(g: Game, p: PlayerId): (r: PlayerId) {
    if p in g.votes then g.votes[p] else Undefined
  }

  /** Slot `q` of the score table once `voters`, in order, have each
      ASSIGNED their own strength to the slot of their target. */
  function ScoreAfter(g: Game, voters: seq<PlayerId>, q: PlayerId): (r: int)
  {
    if voters == [] then 0
    else
      var last := voters[|voters| - 1];
      if Target(g, last) == q then Strength(g, last) else ScoreAfter(g, voters[..|voters| - 1], q)
  }

  /** The final score of `q` in a round of `g`. */
  function Score(g: Game, q: PlayerId): (r: int) {
    ScoreAfter(g, g.remainingPlayers, q)
  }

  /** The running maximum of the scores of `qs`, started at 0. */
  function MaxScoreAmong(g: Game, qs: seq<PlayerId>): (r: int)
  {
    if qs == [] then 0
    else
      var best := MaxScoreAmong(g, qs[..|qs| - 1]);
      var s := Score(g, qs[|qs| - 1]);
      if s > best then s else best
  }

  function TopScore(g: Game): (r: int) {
    MaxScoreAmong(g, g.remainingPlayers)
  }

  /** The players of `qs`, in order, whose score equals `top`. */
  function LosersAmong(g: Game, qs: seq<PlayerId>, top: int): (r: seq<PlayerId>)
  {
    if qs == [] then []
    else
      var prefix := LosersAmong(g, qs[..|qs| - 1], top);
      if Score(g, qs[|qs| - 1]) == top then prefix + [qs[|qs| - 1]] else prefix
  }

  /** The losers of a round of `g`: the remaining players with the top score. */
  function Losers(g: Game): (r: seq<PlayerId>) {
    LosersAmong(g, g.remainingPlayers, TopScore(g))
  }

  /** `p`'s ballot names one of `losers`. (The original's helper
      `votedForLoser` returns the NEGATION of this.) */
  predicate NamedLoser(g: Game, p: PlayerId, losers: seq<PlayerId>) {
    p in g.votes && g.votes[p] in losers
  }

  /** The players of `qs`, in order, that the round keeps; the test is the
      original's: drop `q` if `votedForLoser(q)` or `q` is a loser. */
  function SurvivorsAmong(g: Game, qs: seq<PlayerId>, losers: seq<PlayerId>): (r: seq<PlayerId>)
  {
    if qs == [] then []
    else
      var prefix := SurvivorsAmong(g, qs[..|qs| - 1], losers);
      var last := qs[|qs| - 1];
      if !(!NamedLoser(g, last, losers) || last in losers) then prefix + [last] else prefix
  }

  /** The record after `calculateResults`: the remaining players are
      filtered and the ballots cleared. */
  function AfterTally(g: Game): (r: Game) {
    g.(remainingPlayers := SurvivorsAmong(g, g.remainingPlayers, Losers(g)), votes := map[])
  }

  // ---------------------------------------------------------------------------
  // The duel

  /** The payoff matrix, applied to the two ballots by position. */
  function Resolve(s: map<PlayerId, int>, b1: Ballot, b2: Ballot): (r: (map<PlayerId, int>, DuelResult)) {
    if b1.answer == Hostile && b2.answer == Friendly then
      (Weaken(Strengthen(s, b1.sender), b2.sender), OneWins(b1.sender, b2.sender))
    else if b2.answer == Hostile && b1.answer == Friendly then
      (Weaken(Strengthen(s, b2.sender), b1.sender), OneWins(b2.sender, b1.sender))
    else if b1.answer == Friendly && b2.answer == Friendly then
      (Strengthen(Strengthen(s, b2.sender), b1.sender), BothWin(b1.sender, b2.sender))
    else if b2.answer == Hostile && b1.answer == Hostile then
      (Weaken(Weaken(s, b1.sender), b2.sender), BothLose(b1.sender, b2.sender))
    else
      (s, NoOutcome)
  }

  /** `duelRoundAnswer`: record the answer; every second call resolves the
      first two recorded answers, whoever sent them. */
  function Duel(g: Game, sender: PlayerId, answer: string): (r: (Game, DuelResult))
    requires g.duelToggle ==> |g.duelBallots| >= 1
  {
    var ballots := g.duelBallots + [Ballot(sender, answer)];
    if g.duelToggle then
      var (s, result) := Resolve(g.voteStrength, ballots[0], ballots[1]);
      (g.(voteStrength := s, remainingPlayers := g.players, duelBallots := [], duelToggle := false), result)
    else
      (g.(duelBallots := ballots, duelToggle := true), Pending)
  }

  // ---------------------------------------------------------------------------
  // Joining

  /** `addPlayer` on the record as a value: the newcomer is appended to the
      players and to the remaining players and gets strength 1. */
  function Join(g: Game, p: PlayerId): (r: Game) {
    g.(players := g.players + [p],
       remainingPlayers := g.remainingPlayers + [p],
       voteStrength := g.voteStrength[p := 1])
  }

  // ---------------------------------------------------------------------------
  // Round winner and game over

  /** `winnerOfCurrentRound`: the first remaining player gains one strength. */
  function CrownRoundWinner(g: Game): (r: Game)
    requires |g.remainingPlayers| > 0
  {
    g.(voteStrength := Strengthen(g.voteStrength, g.remainingPlayers[0]))
  }

  /** The players of `qs`, in order, whose strength has reached the threshold. */
  function WinnersAmong(g: Game, qs: seq<PlayerId>): (r: seq<PlayerId>)
  {
    if qs == [] then []
    else
      var prefix := WinnersAmong(g, qs[..|qs| - 1]);
      if Strength(g, qs[|qs| - 1]) >= WinningStrength then prefix + [qs[|qs| - 1]] else prefix
  }

  function GameWinners(g: Game): (r: seq<PlayerId>) {
    WinnersAmong(g, g.remainingPlayers)
  }


  // ---------------------------------------------------------------------------
  // One step of each prefix definition (used by the loops that compute them)

  lemma MaxScoreStep(g: Game, qs: seq<PlayerId>, i: nat)
    requires i < |qs|
    ensures MaxScoreAmong(g, qs[..i + 1]) ==
      var s := Score(g, qs[i]); var best := MaxScoreAmong(g, qs[..i]); if s > best then s else best
  {
    assert qs[..i + 1][..i] == qs[..i];
  }

  lemma LosersStep(g: Game, qs: seq<PlayerId>, i: nat, top: int)
    requires i < |qs|
    ensures LosersAmong(g, qs[..i + 1], top) ==
      LosersAmong(g, qs[..i], top) + (if Score(g, qs[i]) == top then [qs[i]] else [])
  {
    assert qs[..i + 1][..i] == qs[..i];
  }

  lemma SurvivorsStep(g: Game, qs: seq<PlayerId>, i: nat, losers: seq<PlayerId>)
    requires i < |qs|
    ensures SurvivorsAmong(g, qs[..i + 1], losers) ==
      SurvivorsAmong(g, qs[..i], losers) +
      (if !(!NamedLoser(g, qs[i], losers) || qs[i] in losers) then [qs[i]] else [])
  {
    assert qs[..i + 1][..i] == qs[..i];
  }

  lemma WinnersStep(g: Game, qs: seq<PlayerId>, i: nat)
    requires i < |qs|
    ensures WinnersAmong(g, qs[..i + 1]) ==
      WinnersAmong(g, qs[..i]) + (if Strength(g, qs[i]) >= WinningStrength then [qs[i]] else [])
  {
    assert qs[..i + 1][..i] == qs[..i];
  }

  // ---------------------------------------------------------------------------
  // What the prefix definitions contain

  /** The running maximum is the largest score of `qs`, or 0. */
  lemma {:induction false} MaxScoreIsMaximum(g: Game, qs: seq<PlayerId>)
    ensures MaxScoreAmong(g, qs) >= 0
    ensures forall q :: q in qs ==> Score(g, q) <= MaxScoreAmong(g, qs)
    ensures MaxScoreAmong(g, qs) == 0 || exists q :: q in qs && Score(g, q) == MaxScoreAmong(g, qs)
  {
    if qs != [] {
      var init := qs[..|qs| - 1];
      MaxScoreIsMaximum(g, init);
      assert forall q :: q in qs <==> q in init || q == qs[|qs| - 1];
    }
  }

  lemma {:induction false} LosersAmongMembers(g: Game, qs: seq<PlayerId>, top: int)
    ensures forall q :: q in LosersAmong(g, qs, top) <==> q in qs && Score(g, q) == top
    ensures NoDup(qs) ==> NoDup(LosersAmong(g, qs, top))
    ensures IsSubsequence(LosersAmong(g, qs, top), qs)
  {
    if qs == [] {
      assert Picks([], [], []);
    } else {
      var init, last := qs[..|qs| - 1], qs[|qs| - 1];
      LosersAmongMembers(g, init, top);
      assert qs == init + [last];
      assert forall q :: q in qs <==> q in init || q == last;
      NoDupSnoc(LosersAmong(g, init, top), last);
      if Score(g, last) == top {
        SubsequenceTake(LosersAmong(g, init, top), init, last);
      } else {
        SubsequenceSkip(LosersAmong(g, init, top), init, last);
      }
    }
  }

  /** The survivors are exactly the players of `qs` that are no loser and
      whose ballot named a loser; there are fewer of them than players in
      `qs` as soon as `qs` holds a loser. */
  lemma {:induction false} SurvivorsAmongMembers(g: Game, qs: seq<PlayerId>, losers: seq<PlayerId>)
    ensures forall q :: q in SurvivorsAmong(g, qs, losers) <==> q in qs && q !in losers && NamedLoser(g, q, losers)
    ensures NoDup(qs) ==> NoDup(SurvivorsAmong(g, qs, losers))
    ensures |SurvivorsAmong(g, qs, losers)| <= |qs|
    ensures (exists q :: q in qs && q in losers) ==> |SurvivorsAmong(g, qs, losers)| < |qs|
    ensures IsSubsequence(SurvivorsAmong(g, qs, losers), qs)
  {
    if qs == [] {
      assert Picks([], [], []);
    } else {
      var init, last := qs[..|qs| - 1], qs[|qs| - 1];
      SurvivorsAmongMembers(g, init, losers);
      assert qs == init + [last];
      assert forall q :: q in qs <==> q in init || q == last;
      NoDupSnoc(SurvivorsAmong(g, init, losers), last);
      if !(!NamedLoser(g, last, losers) || last in losers) {
        SubsequenceTake(SurvivorsAmong(g, init, losers), init, last);
      } else {
        SubsequenceSkip(SurvivorsAmong(g, init, losers), init, last);
      }
    }
  }

  lemma {:induction false} WinnersAmongMembers(g: Game, qs: seq<PlayerId>)
    ensures forall q :: q in WinnersAmong(g, qs) <==> q in qs && Strength(g, q) >= WinningStrength
    ensures IsSubsequence(WinnersAmong(g, qs), qs)
  {
    if qs == [] {
      assert Picks([], [], []);
    } else {
      var init, last := qs[..|qs| - 1], qs[|qs| - 1];
      WinnersAmongMembers(g, init);
      assert qs == init + [last];
      assert forall q :: q in qs <==> q in init || q == last;
      if Strength(g, last) >= WinningStrength {
        SubsequenceTake(WinnersAmong(g, init), init, last);
      } else {
        SubsequenceSkip(WinnersAmong(g, init), init, last);
      }
    }
  }

  // ---------------------------------------------------------------------------
  // Lemmas: the tally

  /** A score slot holds the strength of the LAST voter, in order, whose
      ballot wrote to it, and 0 when no voter wrote to it: strengths are
      assigned, never added. */
  lemma ScoreIsLastAssignment(g: Game, voters: seq<PlayerId>, q: PlayerId)
    ensures (forall i :: 0 <= i < |voters| ==> Target(g, voters[i]) != q) ==> ScoreAfter(g, voters, q) == 0
    ensures forall i :: 0 <= i < |voters| && Target(g, voters[i]) == q &&
                        (forall j :: i < j < |voters| ==> Target(g, voters[j]) != q)
                        ==> ScoreAfter(g, voters, q) == Strength(g, voters[i])
  {
    if forall i :: 0 <= i < |voters| ==> Target(g, voters[i]) != q {
      ScoreUntargeted(g, voters, q);
    }
    forall i | 0 <= i < |voters| && Target(g, voters[i]) == q &&
               (forall j :: i < j < |voters| ==> Target(g, voters[j]) != q)
      ensures ScoreAfter(g, voters, q) == Strength(g, voters[i])
    {
      ScoreLastWriter(g, voters, q, i);
    }
  }

  lemma {:induction false} ScoreUntargeted(g: Game, voters: seq<PlayerId>, q: PlayerId)
    requires forall i :: 0 <= i < |voters| ==> Target(g, voters[i]) != q
    ensures ScoreAfter(g, voters, q) == 0
  {
    if voters != [] {
      var init := voters[..|voters| - 1];
      assert forall i :: 0 <= i < |init| ==> init[i] == voters[i];
      ScoreUntargeted(g, init, q);
    }
  }

  lemma {:induction false} ScoreLastWriter(g: Game, voters: seq<PlayerId>, q: PlayerId, i: nat)
    requires i < |voters| && Target(g, voters[i]) == q
    requires forall j :: i < j < |voters| ==> Target(g, voters[j]) != q
    ensures ScoreAfter(g, voters, q) == Strength(g, voters[i])
  {
    if i < |voters| - 1 {
      var init := voters[..|voters| - 1];
      assert init[i] == voters[i];
      assert forall j :: i < j < |init| ==> init[j] == voters[j];
      ScoreLastWriter(g, init, q, i);
    }
  }

  lemma {:induction false} ScoreNonNegative(g: Game, voters: seq<PlayerId>, q: PlayerId)
    requires forall v :: v in voters ==> Strength(g, v) >= 0
    ensures ScoreAfter(g, voters, q) >= 0
  {
    if voters != [] {
      var init := voters[..|voters| - 1];
      assert forall v :: v in init ==> v in voters;
      ScoreNonNegative(g, init, q);
    }
  }

  lemma RemainingScoresNonNegative(g: Game)
    requires Wf(g)
    ensures forall q :: Score(g, q) >= 0
  {
    forall q ensures Score(g, q) >= 0 {
      ScoreNonNegative(g, g.remainingPlayers, q);
    }
  }

  /** The losers are exactly the remaining players whose score no other
      remaining player's score exceeds. */
  lemma LosersAreTopScorers(g: Game)
    requires Wf(g)
    ensures forall q :: q in Losers(g) <==>
      q in g.remainingPlayers && forall r :: r in g.remainingPlayers ==> Score(g, r) <= Score(g, q)
  {
    RemainingScoresNonNegative(g);
    MaxScoreIsMaximum(g, g.remainingPlayers);
    LosersAmongMembers(g, g.remainingPlayers, TopScore(g));
  }

  /** Whenever someone remains, the round has at least one loser. */
  lemma LosersNonEmpty(g: Game)
    requires Wf(g) && |g.remainingPlayers| > 0
    ensures |Losers(g)| > 0
  {
    RemainingScoresNonNegative(g);
    MaxScoreIsMaximum(g, g.remainingPlayers);
    LosersAmongMembers(g, g.remainingPlayers, TopScore(g));
    var top := TopScore(g);
    if top == 0 {
      assert g.remainingPlayers[0] in g.remainingPlayers;
      assert g.remainingPlayers[0] in Losers(g);
    } else {
      var q :| q in g.remainingPlayers && Score(g, q) == top;
      assert q in Losers(g);
    }
  }

  lemma {:induction false} AllAmongLose(g: Game, qs: seq<PlayerId>, top: int)
    requires forall q :: q in qs ==> Score(g, q) == top
    ensures LosersAmong(g, qs, top) == qs
  {
    if qs != [] {
      var init := qs[..|qs| - 1];
      assert forall q :: q in init ==> q in qs;
      AllAmongLose(g, init, top);
      assert init + [qs[|qs| - 1]] == qs;
    }
  }

  /** With no ballots at all, every remaining player is a loser (unless a
      player's ID is literally "undefined", whose slot the non-voters fill). */
  lemma NoBallotsAllLose(g: Game)
    requires Wf(g) && g.votes == map[] && Undefined !in g.remainingPlayers
    ensures Losers(g) == g.remainingPlayers
  {
    forall q | q in g.remainingPlayers ensures Score(g, q) == 0 {
      ScoreIsLastAssignment(g, g.remainingPlayers, q);
    }
    MaxScoreIsMaximum(g, g.remainingPlayers);
    AllAmongLose(g, g.remainingPlayers, TopScore(g));
  }

  /** The tally keeps the invariant, removes at least one remaining player
      whenever someone remains, and keeps exactly the non-losers whose
      ballot named a loser. */
  lemma TallyEliminates(g: Game)
    requires Wf(g)
    ensures Wf(AfterTally(g))
    ensures AfterTally(g).votes == map[]
    ensures GameFieldsKept(g, AfterTally(g))
    ensures forall q :: q in AfterTally(g).remainingPlayers <==>
      q in g.remainingPlayers && q !in Losers(g) && q in g.votes && g.votes[q] in Losers(g)
    ensures |g.remainingPlayers| > 0 ==> |AfterTally(g).remainingPlayers| < |g.remainingPlayers|
  {
    SurvivorsAmongMembers(g, g.remainingPlayers, Losers(g));
    LosersAmongMembers(g, g.remainingPlayers, TopScore(g));
    if |g.remainingPlayers| > 0 {
      LosersNonEmpty(g);
      var l := Losers(g)[0];
      assert l in Losers(g);
    }
  }

  /** The fields other than the remaining players and the ballots, the
      duel state included, are the same in `g'` as in `g`. */
  ghost predicate GameFieldsKept(g: Game, g': Game) {
    && g'.state == g.state && g'.creator == g.creator && g'.players == g.players
    && g'.voteStrength == g.voteStrength && g'.votingAllowed == g.votingAllowed
    && g'.duelBallots == g.duelBallots && g'.duelToggle == g.duelToggle
  }

  /** A cycle of ballots A->B, B->C, C->A at equal strength makes everyone a
      loser and leaves nobody. */
  lemma CyclicScores(g: Game)
    requires g.remainingPlayers == ["A", "B", "C"]
    requires g.votes == map["A" := "B", "B" := "C", "C" := "A"]
    requires g.voteStrength == map["A" := 1, "B" := 1, "C" := 1]
    ensures Score(g, "A") == 1 && Score(g, "B") == 1 && Score(g, "C") == 1
  {
    var rem := g.remainingPlayers;
    assert Target(g, rem[0]) == "B" && Target(g, rem[1]) == "C" && Target(g, rem[2]) == "A";
    ScoreLastWriter(g, rem, "A", 2);
    ScoreLastWriter(g, rem, "B", 0);
    ScoreLastWriter(g, rem, "C", 1);
  }

  lemma CyclicBallotsEliminateEveryone(g: Game)
    requires g.remainingPlayers == ["A", "B", "C"]
    requires g.votes == map["A" := "B", "B" := "C", "C" := "A"]
    requires g.voteStrength == map["A" := 1, "B" := 1, "C" := 1]
    ensures Losers(g) == ["A", "B", "C"]
    ensures AfterTally(g).remainingPlayers == []
  {
    var rem := g.remainingPlayers;
    CyclicScores(g);
    assert rem[..0] == [] && rem[..3] == rem;
    MaxScoreStep(g, rem, 0);
    MaxScoreStep(g, rem, 1);
    MaxScoreStep(g, rem, 2);
    AllAmongLose(g, rem, 1);
    var losers := Losers(g);
    SurvivorsStep(g, rem, 0, losers);
    SurvivorsStep(g, rem, 1, losers);
    SurvivorsStep(g, rem, 2, losers);
  }

  lemma OverwriteScores(g: Game)
    requires g.remainingPlayers == ["A", "B", "C"]
    requires g.votes == map["A" := "C", "B" := "C", "C" := "A"]
    requires g.voteStrength == map["A" := 2, "B" := 1, "C" := 1]
    ensures Score(g, "C") == 1 && Score(g, "A") == 1 && Score(g, "B") == 0
  {
    var rem := g.remainingPlayers;
    assert Target(g, rem[0]) == "C" && Target(g, rem[1]) == "C" && Target(g, rem[2]) == "A";
    ScoreLastWriter(g, rem, "C", 1);
    ScoreLastWriter(g, rem, "A", 2);
    ScoreUntargeted(g, rem, "B");
  }

  /** Two voters naming the same target: the target's score is the strength
      of the later voter (1), not the sum (3). */
  lemma LaterBallotOverwritesScore(g: Game)
    requires g.remainingPlayers == ["A", "B", "C"]
    requires g.votes == map["A" := "C", "B" := "C", "C" := "A"]
    requires g.voteStrength == map["A" := 2, "B" := 1, "C" := 1]
    ensures Score(g, "C") == 1 && Score(g, "A") == 1 && Score(g, "B") == 0
    ensures Losers(g) == ["A", "C"]
    ensures AfterTally(g).remainingPlayers == ["B"]
  {
    var rem := g.remainingPlayers;
    OverwriteScores(g);
    assert rem[..0] == [] && rem[..3] == rem;
    MaxScoreStep(g, rem, 0);
    MaxScoreStep(g, rem, 1);
    MaxScoreStep(g, rem, 2);
    LosersStep(g, rem, 0, 1);
    LosersStep(g, rem, 1, 1);
    LosersStep(g, rem, 2, 1);
    var losers := Losers(g);
    assert losers == ["A", "C"];
    SurvivorsStep(g, rem, 0, losers);
    SurvivorsStep(g, rem, 1, losers);
    SurvivorsStep(g, rem, 2, losers);
  }

  // ---------------------------------------------------------------------------
  // Lemmas: the duel and the round winner

  ghost predicate StrengthFloor(s: map<PlayerId, int>, players: seq<PlayerId>) {
    forall p :: p in players ==> p in s && s[p] >= 1
  }

  lemma StrengthenKeepsFloor(s: map<PlayerId, int>, players: seq<PlayerId>, x: PlayerId)
    requires StrengthFloor(s, players) && x in players
    ensures StrengthFloor(Strengthen(s, x), players) && Strengthen(s, x).Keys == s.Keys
  {
  }

  lemma WeakenKeepsFloor(s: map<PlayerId, int>, players: seq<PlayerId>, x: PlayerId)
    requires StrengthFloor(s, players)
    ensures StrengthFloor(Weaken(s, x), players) && Weaken(s, x).Keys == s.Keys
  {
  }

  lemma ResolveKeepsFloor(s: map<PlayerId, int>, players: seq<PlayerId>, b1: Ballot, b2: Ballot)
    requires StrengthFloor(s, players) && b1.sender in players && b2.sender in players
    ensures StrengthFloor(Resolve(s, b1, b2).0, players)
  {
    StrengthenKeepsFloor(s, players, b1.sender);
    StrengthenKeepsFloor(s, players, b2.sender);
    StrengthenKeepsFloor(Strengthen(s, b2.sender), players, b1.sender);
    WeakenKeepsFloor(Strengthen(s, b1.sender), players, b2.sender);
    WeakenKeepsFloor(Strengthen(s, b2.sender), players, b1.sender);
    WeakenKeepsFloor(s, players, b1.sender);
    WeakenKeepsFloor(Weaken(s, b1.sender), players, b2.sender);
  }

  /** A duel answer keeps the invariant; in particular no strength drops
      below 1. */
  lemma DuelKeepsWf(g: Game, sender: PlayerId, answer: string)
    requires Wf(g) && sender in g.players
    ensures Wf(Duel(g, sender, answer).0)
  {
    if g.duelToggle {
      assert g.duelBallots[0] in g.duelBallots;
      ResolveKeepsFloor(g.voteStrength, g.players, g.duelBallots[0], Ballot(sender, answer));
    }
  }

  /** The payoff matrix for two different duellists with strengths x and y. */
  lemma PayoffMatrix(s: map<PlayerId, int>, b1: Ballot, b2: Ballot)
    requires b1.sender != b2.sender && b1.sender in s && b2.sender in s
    ensures var (s', r) := Resolve(s, b1, b2);
      var p1, p2 := b1.sender, b2.sender;
      var x, y := s[p1], s[p2];
      && s'.Keys == s.Keys
      && (forall p :: p in s && p != p1 && p != p2 ==> s'[p] == s[p])
      && (b1.answer == Hostile && b2.answer == Friendly ==>
            r == OneWins(p1, p2) && s'[p1] == x + 1 && s'[p2] == (if y > 1 then y - 1 else y))
      && (b1.answer == Friendly && b2.answer == Hostile ==>
            r == OneWins(p2, p1) && s'[p2] == y + 1 && s'[p1] == (if x > 1 then x - 1 else x))
      && (b1.answer == Friendly && b2.answer == Friendly ==>
            r == BothWin(p1, p2) && s'[p1] == x + 1 && s'[p2] == y + 1)
      && (b1.answer == Hostile && b2.answer == Hostile ==>
            r == BothLose(p1, p2) && s'[p1] == (if x > 1 then x - 1 else x) && s'[p2] == (if y > 1 then y - 1 else y))
      && (!(b1.answer in {Friendly, Hostile} && b2.answer in {Friendly, Hostile}) ==>
            r == NoOutcome && s' == s)
  {
  }

  /** Duel answers alternate: from a game with no recorded answer, the first
      answer is only recorded, and the second one resolves the pair by
      position, clears the answers and makes every player remaining again,
      whoever the two senders are. */
  lemma DuelAnswersAlternate(g: Game, b1: Ballot, b2: Ballot)
    requires Wf(g) && g.duelBallots == []
    ensures var (g1, r1) := Duel(g, b1.sender, b1.answer);
      && r1 == Pending
      && g1.duelBallots == [b1] && g1.voteStrength == g.voteStrength && g1.remainingPlayers == g.remainingPlayers
      && var (g2, r2) := Duel(g1, b2.sender, b2.answer);
         && (g2.voteStrength, r2) == Resolve(g.voteStrength, b1, b2)
         && r2 != Pending
         && g2.remainingPlayers == g.players
         && g2.duelBallots == [] && !g2.duelToggle
  {
    var (g1, r1) := Duel(g, b1.sender, b1.answer);
    assert (g1.duelBallots + [b2])[0] == b1;
  }

  /** The same player answering twice resolves the duel against themself:
      two friendly answers give that player two strength. */
  lemma SameSenderDuelsThemself(g: Game, p: PlayerId)
    requires Wf(g) && g.duelBallots == [] && p in g.players
    ensures var g2 := Duel(Duel(g, p, Friendly).0, p, Friendly);
      g2.1 == BothWin(p, p) && g2.0.voteStrength[p] == g.voteStrength[p] + 2
  {
    DuelAnswersAlternate(g, Ballot(p, Friendly), Ballot(p, Friendly));
  }

  lemma CrownKeepsWf(g: Game)
    requires Wf(g) && |g.remainingPlayers| > 0
    ensures Wf(CrownRoundWinner(g))
    ensures var p := g.remainingPlayers[0];
      CrownRoundWinner(g).voteStrength == g.voteStrength[p := g.voteStrength[p] + 1]
  {
    assert g.remainingPlayers[0] in g.remainingPlayers;
  }

  // ---------------------------------------------------------------------------
  // Joining, and the duel's roster reset

  lemma JoinKeepsWf(g: Game, p: PlayerId)
    requires Wf(g)
    ensures Wf(Join(g, p))
    ensures Strength(Join(g, p), p) == 1
    ensures forall q :: q != p ==> Strength(Join(g, p), q) == Strength(g, q)
  {
  }

  /** A newcomer who is not yet a player is added exactly once to each roster,
      so rosters without repetitions keep none. */
  lemma JoinAddsOnce(g: Game, p: PlayerId)
    requires Wf(g) && NoDup(g.players) && NoDup(g.remainingPlayers) && p !in g.players
    ensures NoDup(Join(g, p).players) && NoDup(Join(g, p).remainingPlayers)
    ensures forall q :: q in Join(g, p).players <==> q in g.players || q == p
    ensures forall q :: q in Join(g, p).remainingPlayers <==> q in g.remainingPlayers || q == p
  {
    NoDupSnoc(g.players, p);
    assert p !in g.remainingPlayers;
    NoDupSnoc(g.remainingPlayers, p);
  }

  /** With rosters as values, a player who joins after a resolved duel is
      added once: both rosters become the old players plus the newcomer. */
  lemma JoinAfterDuelAddsOnce(g: Game, sender: PlayerId, answer: string, p: PlayerId)
    requires Wf(g) && g.duelToggle && sender in g.players
    requires NoDup(g.players) && p !in g.players
    ensures var j := Join(Duel(g, sender, answer).0, p);
      && j.players == g.players + [p]
      && j.remainingPlayers == g.players + [p]
      && NoDup(j.players) && NoDup(j.remainingPlayers)
  {
    var d := Duel(g, sender, answer).0;
    DuelKeepsWf(g, sender, answer);
    JoinAddsOnce(d, p);
  }

  /** The two array fields of a game record as references into a heap of
      arrays, for the sharing that the duel's reset introduces. */
  datatype Roster = Roster(arrays: map<nat, seq<PlayerId>>, playersRef: nat, remainingRef: nat)

  predicate RosterOk(r: Roster) {
    r.playersRef in r.arrays && r.remainingRef in r.arrays
  }

  function Push(r: Roster, ref: nat, p: PlayerId): (pushed: Roster)
    requires ref in r.arrays
  {
    r.(arrays := r.arrays[ref := r.arrays[ref] + [p]])
  }

  /** `addPlayer` as written: push onto the array `players` refers to, then
      onto the array `remainingPlayers` refers to. */
  function AddPlayerAsWritten(r: Roster, p: PlayerId): (joined: Roster)
    requires RosterOk(r)
  {
    Push(Push(r, r.playersRef, p), r.remainingRef, p)
  }

  /** The end of a resolved duel as written: `remainingPlayers` is made to
      refer to the `players` array itself. */
  function DuelResetAsWritten(r: Roster): (reset: Roster)
    requires RosterOk(r)
  {
    r.(remainingRef := r.playersRef)
  }

  /** While the two fields refer to different arrays, `addPlayer` appends the
      newcomer once to each, as `Join` does. */
  lemma AddPlayerSeparateRosters(r: Roster, p: PlayerId)
    requires RosterOk(r) && r.playersRef != r.remainingRef
    ensures var r' := AddPlayerAsWritten(r, p);
      && RosterOk(r')
      && r'.arrays[r'.playersRef] == r.arrays[r.playersRef] + [p]
      && r'.arrays[r'.remainingRef] == r.arrays[r.remainingRef] + [p]
  {
  }

  /** After a resolved duel both fields share one array, so a player who
      joins is pushed onto it twice and appears twice among the players. */
  lemma JoinAfterDuelAsWritten(r: Roster, p: PlayerId)
    requires RosterOk(r)
    ensures var r' := AddPlayerAsWritten(DuelResetAsWritten(r), p);
      && RosterOk(r') && r'.remainingRef == r'.playersRef
      && r'.arrays[r'.playersRef] == r.arrays[r.playersRef] + [p, p]
      && !NoDup(r'.arrays[r'.playersRef])
  {
    var d := DuelResetAsWritten(r);
    var r' := AddPlayerAsWritten(d, p);
    var before := r.arrays[r.playersRef];
    assert r'.arrays[r'.playersRef] == before + [p] + [p];
    assert (before + [p, p])[|before|] == (before + [p, p])[|before| + 1];
  }
}
