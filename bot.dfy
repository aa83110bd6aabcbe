/** The messenger bot that drives the game: the postback router, the intent
    handlers, the "new round" decision, the duel-over announcement and the
    timed phases of a standard round.

    Every handler runs to completion and appends what it sends to an outbox.
    The original's event emitter always emits as the last thing a handler
    does, so a handler here returns the event it emits, and `Settle` delivers
    it next. A scheduled `setTimeout` is a pending `Timer` that the
    environment fires with `OnTimer`. A handler that dereferences a game that
    does not exist, or looks up the name of a player whose profile is not
    stored, throws in the original; here it returns `Threw` and keeps the
    state it had reached. */
module Bot {
  import opened Rules
  import opened GameLogic

  datatype Option<T> = None | Some(value: T)

  /** `multi`: milliseconds of reading time per character of the intro. */
  const Multi: nat := 10
  /** `twoMinutes`: the voting window in milliseconds (half a minute). */
  const VotingWindow: nat := 30000
  /** The number of characters of the round introduction text. */
  const GameIntroLength: nat := 249
  /** When the voting buttons go out, counted from the start of the round. */
  const ButtonsDelay: nat := GameIntroLength * Multi
  /** When voting closes, counted from the start of the round. */
  const CloseDelay: nat := ButtonsDelay + VotingWindow

  const VotingTitle: string := "Voting"

  datatype Button = Button(title: string, payload: PlayerId)
  datatype Element = Element(title: string, buttons: seq<Button>)

  /** What the bot sends; the text of each message is left abstract. */
  datatype Message =
    | GameAlreadyRunning
    | NewGameCreated(id: GameId)
    | RuleUrl
    | JoinedGame(id: GameId)
    | AlreadyJoined(id: GameId)
    | GameNotAvailable(requested: int)
    | GameNotJoined
    | PlayerList(players: seq<PlayerId>)
    | SomethingWrong
    | PlayerVoted(voter: PlayerId)
    | CannotVote
    | DuelWinner(winner: PlayerId, loser: PlayerId)
    | DuelWinners(first: PlayerId, second: PlayerId)
    | DuelLosers(first: PlayerId, second: PlayerId)
    | WinnersOfGame(winners: seq<PlayerId>)
    | WinnerOfThisRound(winner: PlayerId)
    | DuelRoundStarting(duelists: seq<PlayerId>)
    | DuelButtons
    | GameIntro
    | VotingButtons(elements: seq<Element>)
    | StopVotingNow
    | LosersOfTheRound(losers: seq<PlayerId>)
    | PlayerJoined(player: PlayerId)
    | TextOnly

  datatype Notice = Notice(to: PlayerId, message: Message)

  /** The intent the language parser found, with its number entity. */
  datatype Intent =
    | NewGameIntent
    | JoinGameIntent(number: Option<int>)
    | StartGameIntent
    | ListOfPlayersIntent
    | OtherIntent

  /** The events the bot emits to itself. */
  datatype Event =
    | NewRoundEvent(game: Option<GameId>)
    | DuelRoundOverEvent(id: GameId, results: DuelResult)

  /** How a handler ends: normally, by emitting an event, or by throwing. */
  datatype Step = Done | Emit(event: Event) | Threw

  /** The callbacks a standard round schedules. */
  datatype Task = SendVoteButtons(id: GameId, elements: seq<Element>) | CloseVoting(id: GameId)
  datatype Timer = Timer(delay: nat, task: Task)

  /** A profile lookup in flight; after a join, the game to announce it to. */
  datatype Fetch = Fetch(player: PlayerId, announce: Option<GameId>)

  /** An input from outside: a postback, a parsed text message, a message
      with an attachment, a timer firing, or the answer to a profile lookup
      (`None` for an error answer). */
  datatype Input =
    | PostbackInput(sender: PlayerId, payload: string)
    | MessageInput(sender: PlayerId, intent: Intent)
    | AttachmentInput(sender: PlayerId)
    | TimerInput(index: nat)
    | ProfileInput(index: nat, response: Option<Profile>)

  /** `sendAllPlayers`: the message to each of `to`. */
  function Broadcast(to: seq<PlayerId>, m: Message): (r: seq<Notice>) {
    if to == [] then [] else [Notice(to[0], m)] + Broadcast(to[1..], m)
  }

  /** A broadcast is one notice per recipient, in order. */
  lemma {:induction false} BroadcastContents(to: seq<PlayerId>, m: Message)
    ensures |Broadcast(to, m)| == |to|
    ensures forall i :: 0 <= i < |to| ==> Broadcast(to, m)[i] == Notice(to[i], m)
  {
    if to != [] {
      BroadcastContents(to[1..], m);
    }
  }

  function DisplayName(p: Profile): (r: string) {
    p.firstName + " " + p.lastName
  }

  // ---------------------------------------------------------------------------
  // Voting buttons

  /** One postback button per player of `players` whose profile is known. */
  function ButtonsFor(players: seq<PlayerId>, profiles: map<PlayerId, Profile>): (r: seq<Button>) {
    if players == [] then []
    else
      var prefix := ButtonsFor(players[..|players| - 1], profiles);
      var p := players[|players| - 1];
      if p in profiles then prefix + [Button(DisplayName(profiles[p]), p)] else prefix
  }

  /** The payloads of `buttons`, in order. */
  function Payloads(buttons: seq<Button>): (r: seq<PlayerId>)
  {
    if buttons == [] then [] else Payloads(buttons[..|buttons| - 1]) + [buttons[|buttons| - 1].payload]
  }

  /** The buttons are exactly one per player with a known profile, in the
      players' order, carrying that player's ID as payload and display name
      as title. */
  lemma {:induction false} ButtonsForContents(players: seq<PlayerId>, profiles: map<PlayerId, Profile>)
    ensures |ButtonsFor(players, profiles)| <= |players|
    ensures forall b :: b in ButtonsFor(players, profiles) ==>
      b.payload in players && b.payload in profiles && b.title == DisplayName(profiles[b.payload])
    ensures forall p :: p in players && p in profiles ==>
      Button(DisplayName(profiles[p]), p) in ButtonsFor(players, profiles)
    ensures (forall p :: p in players ==> p in profiles) ==> |ButtonsFor(players, profiles)| == |players|
    ensures IsSubsequence(Payloads(ButtonsFor(players, profiles)), players)
    ensures NoDup(players) ==> NoDup(Payloads(ButtonsFor(players, profiles)))
  {
    ButtonsForOrder(players, profiles);
    if players != [] {
      var init := players[..|players| - 1];
      ButtonsForContents(init, profiles);
      assert forall p :: p in players <==> p in init || p == players[|players| - 1];
    }
  }

  /** The buttons' payloads keep the players' order and repeat no one when
      the players repeat no one. */
  lemma {:induction false} ButtonsForOrder(players: seq<PlayerId>, profiles: map<PlayerId, Profile>)
    ensures IsSubsequence(Payloads(ButtonsFor(players, profiles)), players)
    ensures NoDup(players) ==> NoDup(Payloads(ButtonsFor(players, profiles)))
  {
    if players == [] {
      assert Picks([], [], []);
    } else {
      var init, last := players[..|players| - 1], players[|players| - 1];
      var prefix := ButtonsFor(init, profiles);
      ButtonsForOrder(init, profiles);
      assert players == init + [last];
      if last in profiles {
        var b := Button(DisplayName(profiles[last]), last);
        assert (prefix + [b])[..|prefix|] == prefix;
        assert Payloads(prefix + [b]) == Payloads(prefix) + [last];
        SubsequenceTake(Payloads(prefix), init, last);
        PayloadsAmong(prefix, init);
        NoDupSnoc(Payloads(prefix), last);
      } else {
        SubsequenceSkip(Payloads(prefix), init, last);
      }
    }
  }

  /** Every payload of a subsequence of `s` is in `s`. */
  lemma PayloadsAmong(buttons: seq<Button>, s: seq<PlayerId>)
    requires IsSubsequence(Payloads(buttons), s)
    ensures forall p :: p in Payloads(buttons) ==> p in s
  {
    var idx: seq<nat> :| Picks(Payloads(buttons), s, idx);
    forall p | p in Payloads(buttons)
      ensures p in s
    {
      var k :| 0 <= k < |Payloads(buttons)| && Payloads(buttons)[k] == p;
      assert s[idx[k]] == p;
    }
  }

  /** `voteButtons`: the counter that should split the buttons into groups
      of three is never decremented, so every button lands in one element. */
  method VoteButtons(remaining: seq<PlayerId>, profiles: map<PlayerId, Profile>) returns (elements: seq<Element>)
    ensures elements == [Element(VotingTitle, ButtonsFor(remaining, profiles))]
  {
    var buttonCounter := 3;
    var buttons: seq<Button> := [];
    var groups: seq<Element> := [];
    for i := 0 to |remaining|
      invariant buttonCounter == 3 && groups == []
      invariant buttons == ButtonsFor(remaining[..i], profiles)
    {
      var player := remaining[i];
      assert remaining[..i + 1][..i] == remaining[..i];
      if player in profiles {
        if buttonCounter > 0 {
          buttons := buttons + [Button(DisplayName(profiles[player]), player)];
        }
        if buttonCounter == 0 {
          buttonCounter := 3;
          groups := groups + [Element(VotingTitle, buttons)];
          buttons := [];
        }
      }
    }
    assert remaining[..|remaining|] == remaining;
    elements := if |groups| > 0 then groups else [Element(VotingTitle, buttons)];
  }

  // ---------------------------------------------------------------------------
  // The "new round" decision and the postback route

  datatype Phase =
    | GameWon(winners: seq<PlayerId>)
    | RoundWon(winner: PlayerId)
    | DuelPhase(duelists: seq<PlayerId>)
    | StandardRound

  /** The checks of the "new round" handler, in their order. */
  function NextPhase(g: Game): (r: Phase) {
    var winners := GameWinners(g);
    if |winners| > 0 then GameWon(winners)
    else if |g.remainingPlayers| == 1 then RoundWon(g.remainingPlayers[0])
    else if |g.remainingPlayers| < 3 then DuelPhase(g.remainingPlayers)
    else StandardRound
  }

  /** The game ends iff some remaining player reached the threshold; only
      otherwise does a sole remaining player win the round, a duel open
      with fewer than three (that is none or two) remaining, or a standard
      round start with three or more. */
  lemma NextPhaseCases(g: Game)
    ensures NextPhase(g).GameWon? <==> exists p :: p in g.remainingPlayers && Strength(g, p) >= WinningStrength
    ensures NextPhase(g).GameWon? ==>
      forall p :: p in NextPhase(g).winners <==> p in g.remainingPlayers && Strength(g, p) >= WinningStrength
    ensures !NextPhase(g).GameWon? ==> forall p :: p in g.remainingPlayers ==> Strength(g, p) < WinningStrength
    ensures NextPhase(g).RoundWon? <==> !NextPhase(g).GameWon? && |g.remainingPlayers| == 1
    ensures NextPhase(g).RoundWon? ==> g.remainingPlayers == [NextPhase(g).winner]
    ensures NextPhase(g).DuelPhase? <==> !NextPhase(g).GameWon? && (|g.remainingPlayers| == 0 || |g.remainingPlayers| == 2)
    ensures NextPhase(g).DuelPhase? ==> NextPhase(g).duelists == g.remainingPlayers
    ensures NextPhase(g).StandardRound? <==> !NextPhase(g).GameWon? && |g.remainingPlayers| >= 3
  {
    var winners := GameWinners(g);
    WinnersAmongMembers(g, g.remainingPlayers);
    if |winners| > 0 {
      assert winners[0] in winners;
    }
  }

  /** The postback goes to the duel: a duel answer, or any payload while
      fewer than three players remain. */
  predicate RoutesToDuel(payload: string, g: Game) {
    payload == Friendly || payload == Hostile || |g.remainingPlayers| < 3
  }

  function EventRank(e: Event): (r: nat) {
    match e
    case DuelRoundOverEvent(_, _) => 3
    case NewRoundEvent(game) => if game.Some? then 2 else 1
  }

  function StepRank(s: Step): (r: nat) {
    if s.Emit? then EventRank(s.event) else 0
  }

  /** Every one of `ps` has a stored profile, so `getPlayerInfo` can name
      them all; the original throws at the first one that has none. */
  predicate Named(ps: seq<PlayerId>, profiles: map<PlayerId, Profile>) {
    forall p :: p in ps ==> p in profiles
  }

  /** The players whose names the "duel round over" announcement looks up. */
  function DuelNames(results: DuelResult): (r: seq<PlayerId>) {
    match results
    case OneWins(w, l) => [w, l]
    case BothWin(a, b) => [a, b]
    case BothLose(a, b) => [a, b]
    case _ => []
  }

  /** The notice the "duel round over" handler sends for `results`, if any. */
  function DuelAnnouncement(results: DuelResult): (r: Option<Message>) {
    match results
    case OneWins(w, l) => Some(DuelWinner(w, l))
    case BothWin(a, b) => Some(DuelWinners(a, b))
    case BothLose(a, b) => Some(DuelLosers(a, b))
    case _ => None
  }

  // ---------------------------------------------------------------------------
  // The bot's invariant on its sessions and rosters

  /** Every session names an ID already handed out and, while that game is
      live, a game the player is in. */
  ghost predicate SessionsOk(sessions: map<PlayerId, GameId>, games: map<GameId, Game>, counter: nat) {
    && (forall p :: p in sessions ==> sessions[p] < counter)
    && (forall p :: p in sessions && sessions[p] in games ==> p in games[sessions[p]].players)
  }

  /** No roster repeats a player. */
  ghost predicate RostersOk(games: map<GameId, Game>) {
    forall id :: id in games ==> NoDup(games[id].players) && NoDup(games[id].remainingPlayers)
  }

  /** Replacing one game by a record with the same players and a roster
      without repetitions keeps both parts of the invariant. */
  lemma ReplaceGameKeepsInvariant(sessions: map<PlayerId, GameId>, games: map<GameId, Game>, counter: nat,
                                  id: GameId, g: Game)
    requires SessionsOk(sessions, games, counter) && RostersOk(games)
    requires id in games && g.players == games[id].players && NoDup(g.remainingPlayers)
    ensures SessionsOk(sessions, games[id := g], counter) && RostersOk(games[id := g])
  {
  }

  // ---------------------------------------------------------------------------
  // The bot

  class Messenger {
    const registry: Registry
    /** Each player's current game ID (the session context's `gameID`). */
    var sessions: map<PlayerId, GameId>
    var outbox: seq<Notice>
    var timers: seq<Timer>
    var fetches: seq<Fetch>

    ghost predicate Valid()
      reads this`sessions, registry
    {
      && registry.Valid()
      && SessionsOk(sessions, registry.games, registry.counter)
      && RostersOk(registry.games)
    }

    constructor ()
      ensures Valid() && fresh(registry)
      ensures registry.games == map[] && registry.counter == 1 && registry.profiles == map[]
      ensures sessions == map[] && outbox == [] && timers == [] && fetches == []
    {
      registry := new Registry();
      sessions := map[];
      outbox := [];
      timers := [];
      fetches := [];
    }

    // -------------------------------------------------------------------------
    // What each handler does, as a relation between the state before it ran
    // and the state after. A handler's contract states its relation; the
    // dispatchers (`OnIntent`, `OnTimer`, `Deliver`) pass the relation of the
    // handler they ran on to their own callers.

    /** The sessions, the pending profile lookups, the ID counter and the
        stored profiles are as they were. */
    twostate predicate Kept()
      reads this`sessions, this`fetches, registry
    {
      && sessions == old(sessions) && fetches == old(fetches)
      && registry.counter == old(registry.counter) && registry.profiles == old(registry.profiles)
    }

    /** Game over for `id`, whose record was `g`: the winners' names are
        looked up first; then every player hears them and the game is deleted. */
    twostate predicate GameOverEffect(id: GameId, g: Game, winners: seq<PlayerId>, step: Step)
      reads this`outbox, this`timers, registry
    {
      && timers == old(timers)
      && if Named(winners, old(registry.profiles)) then
           && registry.games == old(registry.games) - {id}
           && outbox == old(outbox) + Broadcast(g.players, WinnersOfGame(winners))
           && step == Done
         else
           registry.games == old(registry.games) && outbox == old(outbox) && step == Threw
    }

    /** The sole survivor of `id`'s record `g` is crowned; its name is looked
        up after the crowning, then announced, and "new round" is emitted
        without a game ID. */
    twostate predicate RoundWonEffect(id: GameId, g: Game, step: Step)
      reads this`outbox, this`timers, registry
    {
      && |g.remainingPlayers| > 0
      && timers == old(timers)
      && registry.games == old(registry.games)[id := CrownRoundWinner(g)]
      && if g.remainingPlayers[0] in old(registry.profiles) then
           && outbox == old(outbox) + Broadcast(g.players, WinnerOfThisRound(g.remainingPlayers[0]))
           && step == Emit(NewRoundEvent(None))
         else
           outbox == old(outbox) && step == Threw
    }

    /** A duel opens in `id`, whose record was `g`: the duellists' names are
        looked up first; then all players hear who duels, voting opens and
        the duellists get the duel buttons. */
    twostate predicate DuelOpenEffect(id: GameId, g: Game, step: Step)
      reads this`outbox, this`timers, registry
    {
      && timers == old(timers)
      && if Named(g.remainingPlayers, old(registry.profiles)) then
           && registry.games == old(registry.games)[id := g.(votingAllowed := true)]
           && outbox == old(outbox) + Broadcast(g.players, DuelRoundStarting(g.remainingPlayers))
                                    + Broadcast(g.remainingPlayers, DuelButtons)
           && step == Done
         else
           registry.games == old(registry.games) && outbox == old(outbox) && step == Threw
    }

    /** A standard round of `id`, whose record was `g`: announced, voting
        open, and the buttons and the close of voting scheduled. */
    twostate predicate StandardRoundEffect(id: GameId, g: Game, step: Step)
      reads this`outbox, this`timers, registry
    {
      && registry.games == old(registry.games)[id := g.(votingAllowed := true)]
      && outbox == old(outbox) + Broadcast(g.players, GameIntro)
      && timers == old(timers) + [Timer(ButtonsDelay, SendVoteButtons(id, [Element(VotingTitle, ButtonsFor(g.remainingPlayers, old(registry.profiles)))])),
                                  Timer(CloseDelay, CloseVoting(id))]
      && step == Done
    }

    /** The "new round" handler: a missing game throws at once; otherwise
        the checks of `NextPhase` pick one of the four effects above. */
    twostate predicate NewRoundEffect(game: Option<GameId>, step: Step)
      reads this`outbox, this`timers, registry
    {
      if game.Some? && game.value in old(registry.games) then
        var id, g := game.value, old(registry.games[game.value]);
        match NextPhase(g)
        case GameWon(w) => GameOverEffect(id, g, w, step)
        case RoundWon(_) => RoundWonEffect(id, g, step)
        case DuelPhase(_) => DuelOpenEffect(id, g, step)
        case StandardRound => StandardRoundEffect(id, g, step)
      else
        step == Threw && registry.games == old(registry.games) && outbox == old(outbox) && timers == old(timers)
    }

    /** The "duel round over" handler: a result with an announcement has its
        two names looked up and goes to every player of the game (a missing
        profile or game throws before anything is sent); then "new round" is
        emitted for the game. */
    twostate predicate DuelRoundOverEffect(id: GameId, results: DuelResult, step: Step)
      reads this`outbox, this`timers, registry
    {
      && registry.games == old(registry.games) && timers == old(timers)
      && match DuelAnnouncement(results)
         case None => outbox == old(outbox) && step == Emit(NewRoundEvent(Some(id)))
         case Some(m) =>
           if id in old(registry.games) && Named(DuelNames(results), old(registry.profiles)) then
             && outbox == old(outbox) + Broadcast(old(registry.games[id].players), m)
             && step == Emit(NewRoundEvent(Some(id)))
           else
             outbox == old(outbox) && step == Threw
    }

    /** "New Game": refused while the sender's current game is live;
        otherwise a game is created, becomes the sender's current game, and
        the sender's profile is looked up. */
    twostate predicate NewGameEffect(sender: PlayerId, step: Step)
      reads this`sessions, this`outbox, this`timers, this`fetches, registry
    {
      && timers == old(timers) && registry.profiles == old(registry.profiles) && step == Done
      && if sender in old(sessions) && old(sessions)[sender] in old(registry.games) then
           && registry.games == old(registry.games) && sessions == old(sessions)
           && registry.counter == old(registry.counter) && fetches == old(fetches)
           && outbox == old(outbox) + [Notice(sender, GameAlreadyRunning)]
         else
           var id := old(registry.counter);
           && id !in old(registry.games)
           && registry.counter == id + 1
           && registry.games == old(registry.games)[id := Game(WaitingForPlayers, sender, [sender], map[sender := 1],
                                                                [sender], map[], [], false, false)]
           && sessions == old(sessions)[sender := id]
           && outbox == old(outbox) + [Notice(sender, NewGameCreated(id))]
           && fetches == old(fetches) + [Fetch(sender, None)]
    }

    /** "Join Game" with the parsed game number: the number is required; a
        player of that game is told so; a newcomer gets the rules link, joins,
        makes it their current game and has their profile looked up; a number
        naming no live game is refused. */
    twostate predicate JoinGameEffect(sender: PlayerId, number: Option<int>, step: Step)
      reads this`sessions, this`outbox, this`timers, this`fetches, registry
    {
      && timers == old(timers) && registry.profiles == old(registry.profiles)
      && registry.counter == old(registry.counter)
      && if number.None? then
           && step == Threw && registry.games == old(registry.games) && sessions == old(sessions)
           && outbox == old(outbox) && fetches == old(fetches)
         else if !(number.value >= 0 && number.value in old(registry.games)) then
           && step == Done && registry.games == old(registry.games) && sessions == old(sessions)
           && outbox == old(outbox) + [Notice(sender, GameNotAvailable(number.value))]
           && fetches == old(fetches)
         else
           var n := number.value;
           var g := old(registry.games[n]);
           && step == Done
           && if sender in g.players then
                && registry.games == old(registry.games) && sessions == old(sessions)
                && outbox == old(outbox) + [Notice(sender, AlreadyJoined(n))]
                && fetches == old(fetches)
              else
                && registry.games == old(registry.games)[n := Join(g, sender)]
                && sessions == old(sessions)[sender := n]
                && outbox == old(outbox) + [Notice(sender, RuleUrl), Notice(sender, JoinedGame(n))]
                && fetches == old(fetches) + [Fetch(sender, Some(n))]
    }

    /** "Start Game": whoever has a current game starts it (there is no
        check of creator or state) and "new round" is emitted for it. */
    twostate predicate StartGameEffect(sender: PlayerId, step: Step)
      reads this`outbox, this`timers, registry
    {
      && timers == old(timers)
      && if sender !in old(sessions) then
           registry.games == old(registry.games) && outbox == old(outbox) + [Notice(sender, GameNotJoined)] && step == Done
         else if old(sessions)[sender] !in old(registry.games) then
           registry.games == old(registry.games) && outbox == old(outbox) && step == Threw
         else
           var id := old(sessions)[sender];
           && registry.games == old(registry.games)[id := old(registry.games[id]).(state := Round1, votingAllowed := true)]
           && outbox == old(outbox) && step == Emit(NewRoundEvent(Some(id)))
    }

    /** "List of Players": the names of the players of the sender's current
        game are looked up, and the sender gets the list. */
    twostate predicate ListOfPlayersEffect(sender: PlayerId, step: Step)
      reads this`outbox, this`timers, registry
    {
      && registry.games == old(registry.games) && timers == old(timers)
      && if sender !in old(sessions) then
           outbox == old(outbox) + [Notice(sender, GameNotJoined)] && step == Done
         else
           var id := old(sessions)[sender];
           if id in old(registry.games) && Named(old(registry.games[id].players), old(registry.profiles)) then
             outbox == old(outbox) + [Notice(sender, PlayerList(old(registry.games[id].players)))] && step == Done
           else
             outbox == old(outbox) && step == Threw
    }

    /** The first timer of a round: the prepared buttons go to every player. */
    twostate predicate SendButtonsEffect(id: GameId, elements: seq<Element>, step: Step)
      reads this`outbox, registry
    {
      && registry.games == old(registry.games)
      && if id in old(registry.games) then
           step == Done && outbox == old(outbox) + Broadcast(old(registry.games[id].players), VotingButtons(elements))
         else
           step == Threw && outbox == old(outbox)
    }

    /** The second timer of a round: voting closes and every player is told
        so; the round is tallied; the losers' names are looked up and
        announced; and "new round" is emitted for the game. */
    twostate predicate CloseVotingEffect(id: GameId, step: Step)
      reads this`outbox, registry
    {
      if id in old(registry.games) then
        var g := old(registry.games[id]);
        var closed := g.(votingAllowed := false);
        && registry.games == old(registry.games)[id := AfterTally(closed)]
        && if Named(Losers(closed), old(registry.profiles)) then
             && outbox == old(outbox) + Broadcast(g.players, StopVotingNow) + Broadcast(g.players, LosersOfTheRound(Losers(closed)))
             && step == Emit(NewRoundEvent(Some(id)))
           else
             outbox == old(outbox) + Broadcast(g.players, StopVotingNow) && step == Threw
      else
        step == Threw && registry.games == old(registry.games) && outbox == old(outbox)
    }

    // -------------------------------------------------------------------------
    // The handlers

    /** The "new round" handler. */
    method OnNewRound(game: Option<GameId>) returns (step: Step)
      requires Valid()
      modifies this, registry
      ensures Valid() && Kept()
      ensures StepRank(step) < EventRank(NewRoundEvent(game))
      ensures NewRoundEffect(game, step)
    {
      if game.None? || game.value !in registry.games {
        return Threw;
      }
      var id := game.value;
      var g := registry.games[id];
      NextPhaseCases(g);
      var gameWinners := registry.GameOver(id);
      if |gameWinners| > 0 {
        step := EndGame(id, gameWinners);
      } else if registry.IsWinner(id) {
        step := CrownSurvivor(id);
      } else if registry.IsDuelRound(id) {
        step := OpenDuel(id);
      } else {
        StartStandardRound(id);
        step := Done;
      }
    }

    /** Game over: the winners are announced and the game is deleted. */
    method EndGame(id: GameId, winners: seq<PlayerId>) returns (step: Step)
      requires Valid() && id in registry.games
      modifies this, registry
      ensures Valid() && Kept()
      ensures GameOverEffect(id, old(registry.games[id]), winners, step)
    {
      if !Named(winners, registry.profiles) {
        return Threw;
      }
      outbox := outbox + Broadcast(registry.games[id].players, WinnersOfGame(winners));
      registry.StopGame(id);
      return Done;
    }

    /** A sole survivor wins the round: crowned, named and announced. The
        name is looked up after the crowning (the last step of
        `winnerOfCurrentRound`), so a missing profile keeps the crowning. */
    method CrownSurvivor(id: GameId) returns (step: Step)
      requires Valid() && id in registry.games && |registry.games[id].remainingPlayers| > 0
      modifies this, registry
      ensures Valid() && Kept()
      ensures RoundWonEffect(id, old(registry.games[id]), step)
    {
      var players := registry.games[id].players;
      var roundWinner := registry.WinnerOfCurrentRound(id);
      if roundWinner !in registry.profiles {
        return Threw;
      }
      outbox := outbox + Broadcast(players, WinnerOfThisRound(roundWinner));
      // the original emits "new round" here without the game ID
      return Emit(NewRoundEvent(None));
    }

    /** A duel opens: the duellists are named to all, voting opens, and the
        duellists get the buttons. */
    method OpenDuel(id: GameId) returns (step: Step)
      requires Valid() && id in registry.games
      modifies this, registry
      ensures Valid() && Kept()
      ensures DuelOpenEffect(id, old(registry.games[id]), step)
    {
      var g := registry.games[id];
      if !Named(g.remainingPlayers, registry.profiles) {
        return Threw;
      }
      outbox := outbox + Broadcast(g.players, DuelRoundStarting(g.remainingPlayers));
      var duelists := registry.StartDuel(id);
      outbox := outbox + Broadcast(duelists, DuelButtons);
      return Done;
    }

    /** `newRound` of the bot: announce the round, open voting, and schedule
        the voting buttons and the close of voting. */
    method StartStandardRound(id: GameId)
      requires Valid() && id in registry.games
      modifies this, registry
      ensures Valid() && Kept()
      ensures StandardRoundEffect(id, old(registry.games[id]), Done)
    {
      var delay := 0;
      outbox := outbox + Broadcast(registry.games[id].players, GameIntro);
      ReplaceGameKeepsInvariant(sessions, registry.games, registry.counter, id, registry.games[id].(votingAllowed := true));
      registry.NewRound(id);
      var buttons := VoteButtons(registry.games[id].remainingPlayers, registry.profiles);
      delay := delay + GameIntroLength * Multi;
      timers := timers + [Timer(delay, SendVoteButtons(id, buttons)), Timer(delay + VotingWindow, CloseVoting(id))];
    }

    /** The "duel round over" handler. */
    method OnDuelRoundOver(id: GameId, results: DuelResult) returns (step: Step)
      requires Valid()
      modifies this
      ensures Valid() && Kept()
      ensures StepRank(step) < EventRank(DuelRoundOverEvent(id, results))
      ensures DuelRoundOverEffect(id, results, step)
    {
      var announcement := DuelAnnouncement(results);
      if announcement.Some? {
        if !Named(DuelNames(results), registry.profiles) || id !in registry.games {
          return Threw;
        }
        outbox := outbox + Broadcast(registry.games[id].players, announcement.value);
      }
      return Emit(NewRoundEvent(Some(id)));
    }

    /** The postback branch of the webhook: a duel answer or a vote. An
        accepted vote is stored before the voter's name is looked up. */
    method OnPostback(sender: PlayerId, payload: string) returns (step: Step)
      requires Valid()
      modifies this, registry
      ensures Valid() && Kept()
      ensures timers == old(timers)
      ensures !(sender in old(sessions) && old(sessions)[sender] in old(registry.games)) ==>
        step == Threw && registry.games == old(registry.games) && outbox == old(outbox)
      ensures sender in old(sessions) && old(sessions)[sender] in old(registry.games) ==>
        var id := old(sessions)[sender];
        var g := old(registry.games[id]);
        if RoutesToDuel(payload, g) then
          var (g', r) := Duel(g, sender, payload);
          && registry.games == old(registry.games)[id := g']
          && outbox == old(outbox)
          && step == (if r.Pending? then Done else Emit(DuelRoundOverEvent(id, r)))
        else if g.votingAllowed then
          && registry.games == old(registry.games)[id := g.(votes := g.votes[sender := payload])]
          && if sender in old(registry.profiles) then
               outbox == old(outbox) + Broadcast(g.players, PlayerVoted(sender)) && step == Done
             else
               outbox == old(outbox) && step == Threw
        else
          && registry.games == old(registry.games)
          && outbox == old(outbox) + [Notice(sender, CannotVote)]
          && step == Done
    {
      if sender !in sessions || sessions[sender] !in registry.games {
        return Threw;
      }
      var id := sessions[sender];
      if RoutesToDuel(payload, registry.games[id]) {
        var g := registry.games[id];
        var results := registry.DuelRoundAnswer(id, sender, payload);
        if g.duelToggle {
          assert registry.games[id].remainingPlayers == g.players;
        }
        if results.Pending? {
          return Done;
        }
        return Emit(DuelRoundOverEvent(id, results));
      } else {
        var accepted := registry.Vote(id, sender, payload);
        if accepted || registry.IsDuelRound(id) {
          if sender !in registry.profiles {
            return Threw;
          }
          outbox := outbox + Broadcast(registry.games[id].players, PlayerVoted(sender));
        } else {
          outbox := outbox + [Notice(sender, CannotVote)];
        }
        return Done;
      }
    }

    /** The attachment branch of the webhook: the sender is told that only
        text is understood, and nothing else changes. */
    method OnAttachment(sender: PlayerId) returns (step: Step)
      requires Valid()
      modifies this
      ensures Valid() && Kept()
      ensures registry.games == old(registry.games) && timers == old(timers)
      ensures outbox == old(outbox) + [Notice(sender, TextOnly)] && step == Done
    {
      outbox := outbox + [Notice(sender, TextOnly)];
      return Done;
    }

    /** The intent branch of the webhook, after the parser has answered:
        the handler of the intent runs; an unknown intent gets "Something is
        wrong". */
    method OnIntent(sender: PlayerId, intent: Intent) returns (step: Step)
      requires Valid()
      modifies this, registry
      ensures Valid()
      ensures match intent
        case NewGameIntent => NewGameEffect(sender, step)
        case JoinGameIntent(number) => JoinGameEffect(sender, number, step)
        case StartGameIntent => Kept() && StartGameEffect(sender, step)
        case ListOfPlayersIntent => Kept() && ListOfPlayersEffect(sender, step)
        case OtherIntent =>
          && Kept() && registry.games == old(registry.games) && timers == old(timers)
          && outbox == old(outbox) + [Notice(sender, SomethingWrong)] && step == Done
    {
      match intent {
        case NewGameIntent =>
          step := NewGame(sender);
        case JoinGameIntent(number) =>
          step := JoinGame(sender, number);
        case StartGameIntent =>
          step := StartGame(sender);
        case ListOfPlayersIntent =>
          step := ListOfPlayers(sender);
        case OtherIntent =>
          outbox := outbox + [Notice(sender, SomethingWrong)];
          step := Done;
      }
    }

    method NewGame(sender: PlayerId) returns (step: Step)
      requires Valid()
      modifies this, registry
      ensures Valid()
      ensures NewGameEffect(sender, step)
    {
      if sender in sessions && registry.IsGameAvailable(sessions[sender]) {
        outbox := outbox + [Notice(sender, GameAlreadyRunning)];
      } else {
        var id := registry.CreateGame(sender);
        sessions := sessions[sender := id];
        outbox := outbox + [Notice(sender, NewGameCreated(id))];
        fetches := fetches + [Fetch(sender, None)];
      }
      return Done;
    }

    method JoinGame(sender: PlayerId, number: Option<int>) returns (step: Step)
      requires Valid()
      modifies this, registry
      ensures Valid()
      ensures JoinGameEffect(sender, number, step)
    {
      if number.None? {
        return Threw;
      }
      var n := number.value;
      if n >= 0 && registry.IsGameAvailable(n) {
        if registry.IsPlayerPlaying(n, sender) {
          outbox := outbox + [Notice(sender, AlreadyJoined(n))];
        } else {
          outbox := outbox + [Notice(sender, RuleUrl)];
          JoinAddsOnce(registry.games[n], sender);
          registry.AddPlayer(n, sender);
          sessions := sessions[sender := n];
          outbox := outbox + [Notice(sender, JoinedGame(n))];
          fetches := fetches + [Fetch(sender, Some(n))];
        }
      } else {
        outbox := outbox + [Notice(sender, GameNotAvailable(n))];
      }
      return Done;
    }

    method StartGame(sender: PlayerId) returns (step: Step)
      requires Valid()
      modifies this, registry
      ensures Valid() && Kept()
      ensures StartGameEffect(sender, step)
    {
      if sender !in sessions {
        outbox := outbox + [Notice(sender, GameNotJoined)];
        return Done;
      }
      var id := sessions[sender];
      if id !in registry.games {
        return Threw;
      }
      registry.StartGame(id);
      return Emit(NewRoundEvent(Some(id)));
    }

    method ListOfPlayers(sender: PlayerId) returns (step: Step)
      requires Valid()
      modifies this
      ensures Valid() && Kept()
      ensures ListOfPlayersEffect(sender, step)
    {
      if sender !in sessions {
        outbox := outbox + [Notice(sender, GameNotJoined)];
        return Done;
      }
      var id := sessions[sender];
      if id !in registry.games || !Named(registry.games[id].players, registry.profiles) {
        return Threw;
      }
      outbox := outbox + [Notice(sender, PlayerList(registry.games[id].players))];
      return Done;
    }

    /** Fires pending timer `i`: its task runs and it leaves the pending list
        (no task looks at the pending list, so the order of the two does not
        show). */
    method OnTimer(i: nat) returns (step: Step)
      requires Valid() && i < |timers|
      modifies this, registry
      ensures Valid() && Kept()
      ensures timers == old(timers[..i] + timers[i + 1..])
      ensures match old(timers[i].task)
        case SendVoteButtons(id, elements) => SendButtonsEffect(id, elements, step)
        case CloseVoting(id) => CloseVotingEffect(id, step)
    {
      var timer := timers[i];
      match timer.task {
        case SendVoteButtons(id, elements) =>
          step := SendButtons(id, elements);
        case CloseVoting(id) =>
          step := CloseVotingRound(id);
      }
      timers := timers[..i] + timers[i + 1..];
    }

    method SendButtons(id: GameId, elements: seq<Element>) returns (step: Step)
      requires Valid()
      modifies this
      ensures Valid() && Kept() && timers == old(timers)
      ensures SendButtonsEffect(id, elements, step)
    {
      if id !in registry.games {
        return Threw;
      }
      outbox := outbox + Broadcast(registry.games[id].players, VotingButtons(elements));
      return Done;
    }

    method CloseVotingRound(id: GameId) returns (step: Step)
      requires Valid()
      modifies this, registry
      ensures Valid() && Kept() && timers == old(timers)
      ensures CloseVotingEffect(id, step)
    {
      if id !in registry.games {
        return Threw;
      }
      StopVotingRound(id);
      step := TallyRound(id);
    }

    /** Voting closes and every player is told so. */
    method StopVotingRound(id: GameId)
      requires Valid() && id in registry.games
      modifies this, registry
      ensures Valid() && Kept() && timers == old(timers)
      ensures var g := old(registry.games[id]);
        && registry.games == old(registry.games)[id := g.(votingAllowed := false)]
        && outbox == old(outbox) + Broadcast(g.players, StopVotingNow)
    {
      ReplaceGameKeepsInvariant(sessions, registry.games, registry.counter, id, registry.games[id].(votingAllowed := false));
      registry.StopVoting(id);
      outbox := outbox + Broadcast(registry.games[id].players, StopVotingNow);
    }

    /** The round is tallied; the losers' names are looked up, every player
        hears them, and "new round" is emitted for the game. */
    method TallyRound(id: GameId) returns (step: Step)
      requires Valid() && id in registry.games
      modifies this, registry
      ensures Valid() && Kept() && timers == old(timers)
      ensures var g := old(registry.games[id]);
        && registry.games == old(registry.games)[id := AfterTally(g)]
        && if Named(Losers(g), registry.profiles) then
             && outbox == old(outbox) + Broadcast(g.players, LosersOfTheRound(Losers(g)))
             && step == Emit(NewRoundEvent(Some(id)))
           else
             outbox == old(outbox) && step == Threw
    {
      var g := registry.games[id];
      SurvivorsAmongMembers(g, g.remainingPlayers, Losers(g));
      ReplaceGameKeepsInvariant(sessions, registry.games, registry.counter, id, AfterTally(g));
      var losers := registry.CalculateResults(id);
      if !Named(losers, registry.profiles) {
        return Threw;
      }
      outbox := outbox + Broadcast(g.players, LosersOfTheRound(losers));
      return Emit(NewRoundEvent(Some(id)));
    }

    /** Profile lookup `i` answered: an error answer rejects before anything
        is stored; otherwise the profile is stored and, after a join, the
        game hears that the player joined. */
    method OnProfile(i: nat, response: Option<Profile>) returns (step: Step)
      requires Valid() && i < |fetches|
      modifies this, registry
      ensures Valid()
      ensures fetches == old(fetches[..i] + fetches[i + 1..])
      ensures registry.games == old(registry.games) && registry.counter == old(registry.counter)
      ensures sessions == old(sessions) && timers == old(timers)
      ensures var f := old(fetches[i]);
        if response.None? then
          registry.profiles == old(registry.profiles) && outbox == old(outbox) && step == Threw
        else
          && registry.profiles == old(registry.profiles)[f.player := response.value]
          && if f.announce.None? then outbox == old(outbox) && step == Done
             else if f.announce.value !in registry.games then outbox == old(outbox) && step == Threw
             else outbox == old(outbox) + Broadcast(registry.games[f.announce.value].players, PlayerJoined(f.player))
                  && step == Done
    {
      var f := fetches[i];
      fetches := fetches[..i] + fetches[i + 1..];
      if response.None? {
        return Threw;
      }
      registry.SetPlayerInfo(f.player, response.value);
      step := Done;
      if f.announce.Some? {
        var id := f.announce.value;
        if id !in registry.games {
          return Threw;
        }
        outbox := outbox + Broadcast(registry.games[id].players, PlayerJoined(f.player));
      }
    }

    /** The event emitter: run the handler of `e`. */
    method Deliver(e: Event) returns (step: Step)
      requires Valid()
      modifies this, registry
      ensures Valid() && Kept()
      ensures StepRank(step) < EventRank(e)
      ensures match e
        case NewRoundEvent(game) => NewRoundEffect(game, step)
        case DuelRoundOverEvent(id, results) => DuelRoundOverEffect(id, results, step)
    {
      match e
      case NewRoundEvent(game) =>
        step := OnNewRound(game);
      case DuelRoundOverEvent(id, results) =>
        step := OnDuelRoundOver(id, results);
    }

    /** Deliver emitted events until a handler emits none. */
    method Settle(first: Step) returns (last: Step)
      requires Valid()
      modifies this, registry
      ensures Valid()
      ensures !last.Emit?
    {
      last := first;
      while last.Emit?
        invariant Valid()
        decreases StepRank(last)
      {
        last := Deliver(last.event);
      }
    }

    /** One input from outside, run to completion. */
    method Handle(input: Input) returns (last: Step)
      requires Valid()
      requires input.TimerInput? ==> input.index < |timers|
      requires input.ProfileInput? ==> input.index < |fetches|
      modifies this, registry
      ensures Valid()
      ensures !last.Emit?
    {
      var step := Done;
      match input {
        case PostbackInput(sender, payload) =>
          step := OnPostback(sender, payload);
        case MessageInput(sender, intent) =>
          step := OnIntent(sender, intent);
        case AttachmentInput(sender) =>
          step := OnAttachment(sender);
        case TimerInput(index) =>
          step := OnTimer(index);
        case ProfileInput(index, response) =>
          step := OnProfile(index, response);
      }
      last := Settle(step);
    }
  }
}
