# Althing game bot, modelled in Dafny

Althing is a Messenger party game. Players join a game by its number and
then play rounds. In each round they vote to eliminate each other. When
fewer than three remain, a sole survivor wins the round, and otherwise the
two (or none) play a "friendly/hostile" duel. The game ends once a
remaining player's vote strength reaches 3. This project models two parts
of the system and proves properties of both:

- the rules engine of `gameLogic.js`;
- the round sequencing and event dispatch of `index.js` that drives it.

The project has three modules:

- `Rules` (`rules.dfy`) holds the game record and the pure definitions with
  their lemmas:
  - the tally: score table, top score, losers, survivors;
  - the duel payoff matrix and the alternating duel ballots;
  - crowning the round winner, the game-over winners, and joining.
- `GameLogic` (`gamelogic.dfy`) holds the module-level state of
  `gameLogic.js` as a `Registry` class. Its fields are the ID counter, the
  map from ID to game record, and the profile directory. Each exported
  operation that changes state is a method whose contract states the new
  registry state. The getters (`getPlayers`, `getRemainingPlayers`,
  `getRemainingPlayersName`, `getPlayerInfo`, `listOfPlayers`) have no
  method: the bot reads the record's `players` and `remainingPlayers` and
  the `profiles` field directly, and the lookup that throws is the
  predicate `Bot.Named`. The
  `forEach` loops of `calculateResults`, `votedForLoser` and `gameOver` are
  loops proved against the `Rules` functions. `isGameAvailable`,
  `isPlayerPlaying`, `isDuelRound` and `isWinner` are predicates of the
  class.
- `Bot` (`bot.dfy`) holds the bot as a class. Its fields are the registry,
  the sessions (player to current game ID), an outbox of notices, the
  pending timers and the pending profile lookups.
  - Every webhook branch (postback, text message, attachment), emitted
    event and timer callback is one method.
    It runs to completion. Its effect on the state is a `twostate predicate`
    of the class (`NewRoundEffect`, `CloseVotingEffect`, `JoinGameEffect`,
    and so on), read against the state before the handler ran. The
    predicate `Kept` says which fields stay as they were.
  - The dispatchers `OnIntent`, `OnTimer` and `Deliver` promise the effect
    of the handler they ran, case by case. So the chains "Start Game, then
    new round", "close of voting, then new round" and "duel result, then
    new round" are stated one delivery at a time.
  - In the original, every handler emits its event as the last thing it
    does. Here a handler returns the event it emits, and `Settle` delivers
    it. Each delivery lowers a rank, so `Settle` terminates.
  - Three dereferences throw in the original: one of a game that does not
    exist; one of a player whose profile is not stored yet
    (`getPlayerInfo`, `getRemainingPlayersName`, `listOfPlayers`); and
    `number.value` for a "Join Game" without a number entity
    (index.js:296, 319). Here each
    ends the handler with `Threw` at the point where the original throws.
    The state reached before that point is kept.

Behaviour of the original kept on purpose:

- The tally assigns a voter's strength to its target's score instead of
  adding it.
- A remaining player without a ballot assigns to the key `"undefined"`.
- `votedForLoser` returns true when the ballot names no loser.
- The duel resolves on every second ballot, whoever sent it.
- After a resolved duel every player is remaining again.
- The duel toggle starts false. The record's initial field is named
  `dualRoundStatus`, but the field that is read is `dualRoundVotesStatus`.
- `addPlayer` has no duplicate guard, so re-adding resets strength to 1.
- No check of creator or state guards "Start Game".
- The sole-survivor branch of the "new round" handler (index.js:439-442)
  emits "new round" with no game ID. In the model that branch returns
  `Emit(NewRoundEvent(None))`, and delivering that event gives `Threw`. The
  crowned player's strength has already increased at that point, and no
  further round starts on its own. With one player remaining, every later
  postback goes to the duel (index.js:226-229, `Bot.RoutesToDuel`). The
  second such postback resolves it, and "duel round over" then emits "new
  round" with the ID (index.js:427). A later "Start Game" also runs the
  decision again and crowns the same player once more.
- The standard round sends the voting buttons at `gameIntro.length * multi`
  = 249 × 10 = 2490 ms and closes voting at 2490 + 30000 = 32490 ms. The
  buttons are laid out when the round starts; the recipients are read when
  the timer fires.

## Model

| member | source | states |
|---|---|---|
| Rules.ScoreIsLastAssignment | gameLogic.js:95-100 | a player's score is 0 if no remaining voter targets them, otherwise the strength of the last voter in order that targets them (assignment, not a sum) |
| Rules.ScoreUntargeted | gameLogic.js:95-100 | a player no voter targets keeps the initial score 0 |
| Rules.ScoreLastWriter | gameLogic.js:97-100 | the voter at position i targeting q, with no later voter targeting q, fixes q's score at its own strength |
| Rules.ScoreNonNegative | gameLogic.js:95-100 | a score is never negative when the strengths are not |
| Rules.RemainingScoresNonNegative | gameLogic.js:95-100 | in a well-formed game every remaining player's score is at least 0 |
| Rules.LaterBallotOverwritesScore | gameLogic.js:97-100 | with strengths A=2, B=1, C=1 and ballots A→C, B→C, C→A, C scores 1 (B's assignment overwrites A's), the losers are A and C and B survives |
| Rules.MaxScoreIsMaximum | gameLogic.js:102-107 | the running maximum starting from 0 is at least every score, and is 0 or attained by some player |
| Rules.LosersAmongMembers | gameLogic.js:109-112 | a player is a loser iff they are remaining and their score equals the top score; the losers are a subsequence of the players scanned (their order kept) and repeat no one when those do not |
| Rules.LosersAreTopScorers | gameLogic.js:102-112 | in a well-formed game, q is a loser iff q is remaining and no remaining player scores more |
| Rules.LosersNonEmpty | gameLogic.js:102-112 | losers is non-empty whenever someone remains |
| Rules.AllAmongLose | gameLogic.js:109-112 | when every player scores the top score, all of them are losers, in order |
| Rules.NoBallotsAllLose | gameLogic.js:95-112 | with no ballots (and no player called "undefined"), every remaining player is a loser |
| Rules.SurvivorsAmongMembers | gameLogic.js:114-122 | a player survives iff they are not a loser and their ballot names a loser; survivors are a subsequence of the players scanned, picked at strictly increasing positions, with no repetitions when those have none, and strictly shorter when someone is a loser |
| Rules.TallyEliminates | gameLogic.js:88-126 | the tally keeps the game well formed, clears the ballots, keeps every other field (state, creator, players, strengths, the voting flag, and the duel ballots and toggle, so a duel answer given during a standard round survives it), leaves exactly the survivors, and strictly shrinks a non-empty roster |
| Rules.CyclicBallotsEliminateEveryone | gameLogic.js:88-126 | ballots A→B, B→C, C→A at strength 1 make all three losers and leave nobody remaining |
| Rules.StrengthenKeepsFloor | gameLogic.js:150 | an increment keeps every player's strength at least 1 |
| Rules.WeakenKeepsFloor | gameLogic.js:151-152 | the guarded decrement keeps every player's strength at least 1 |
| Rules.ResolveKeepsFloor | gameLogic.js:149-169 | resolving a duel keeps every player's strength at least 1 |
| Rules.PayoffMatrix | gameLogic.js:149-169 | for distinct duellists: hostile beats friendly (+1 and a floored −1), both friendly gains +1 each, both hostile loses a floored −1 each, any other pair changes nothing and gives `{}` |
| Rules.DuelKeepsWf | gameLogic.js:141-177 | a duel answer from a player keeps the game well formed |
| Rules.DuelAnswersAlternate | gameLogic.js:141-177 | from no ballots, the first answer is stored and returns false, and the second resolves ballot 0 against ballot 1, resets the remaining players to all players and clears the ballots |
| Rules.SameSenderDuelsThemself | gameLogic.js:141-177 | one player answering "friendly" twice resolves the duel against themself and gains 2 |
| Rules.CrownKeepsWf | gameLogic.js:82-86 | crowning adds exactly 1 to the first remaining player's strength and keeps the game well formed |
| Rules.WinnersAmongMembers | gameLogic.js:179-185 | a player is a game winner iff they are remaining and their strength is at least 3; the winners are a subsequence of the players scanned, picked at strictly increasing positions |
| Rules.JoinKeepsWf | gameLogic.js:35-39 | joining keeps the game well formed, sets the newcomer's strength to 1 (even for a re-join) and changes no other strength |
| Rules.JoinAddsOnce | gameLogic.js:35-39 | a newcomer who is not a player is added once to each roster, and rosters without repetitions keep none |
| Rules.AddPlayerSeparateRosters | gameLogic.js:35-39 | while the two rosters are different arrays, the two pushes append the newcomer once to each |
| Rules.JoinAfterDuelAsWritten | gameLogic.js:170 | after the reset shares one array, a player who joins is pushed onto it twice and appears twice among the players |
| Rules.JoinAfterDuelAddsOnce | gameLogic.js:170 | with rosters as values, a player who joins after a resolved duel is added once to both rosters |
| GameLogic.ScoreTable | gameLogic.js:91-100 | the score map gives every remaining player their tally score |
| GameLogic.ComputeTally | gameLogic.js:102-122 | the loops yield exactly the losers and the survivors of the tally |
| GameLogic.VotedForLoser | gameLogic.js:128-134 | the result is true iff the player's ballot names none of the losers |
| GameLogic.FirstThreeGames | gameLogic.js:1-19 | a fresh registry numbers games 1, 2, 3; a new game has only its creator, strength 1, no ballots and no duel ballots |
| GameLogic.Registry.constructor | gameLogic.js:1-3 | the counter starts at 1 with no games and no profiles |
| GameLogic.Registry.CreateGame | gameLogic.js:5-19 | returns the counter, increments it, and adds the new game record without touching the others |
| GameLogic.Registry.StartGame | gameLogic.js:21-24 | sets the state to round 1 and opens voting |
| GameLogic.Registry.NewRound | gameLogic.js:26-28 | opens voting and changes nothing else |
| GameLogic.Registry.IsGameAvailable | gameLogic.js:30 | the ID 0 and any ID the counter has not reached are never available |
| GameLogic.Registry.IsPlayerPlaying | gameLogic.js:32-33 | a player of the game has a vote strength of at least 1 |
| GameLogic.Registry.AddPlayer | gameLogic.js:35-39 | the game becomes its join with the player; nothing else changes |
| GameLogic.Registry.SetPlayerInfo | gameLogic.js:54-57 | stores the profile under the player's ID |
| GameLogic.Registry.Vote | gameLogic.js:67-72 | returns whether voting is open; if so the voter's ballot is overwritten, otherwise nothing changes |
| GameLogic.Registry.StopVoting | gameLogic.js:74-76 | closes voting and changes nothing else |
| GameLogic.Registry.IsDuelRound | gameLogic.js:78 | a round with a sole survivor is a duel round too; a round that is not one has at least three remaining players |
| GameLogic.Registry.IsWinner | gameLogic.js:80 | a round has a winner only when exactly one player remains, and that player is one of the game's players |
| GameLogic.Registry.WinnerOfCurrentRound | gameLogic.js:82-86 | returns the first remaining player and crowns them |
| GameLogic.Registry.CalculateResults | gameLogic.js:88-126 | returns the losers and replaces the game by its tally |
| GameLogic.Registry.StartDuel | gameLogic.js:136-139 | opens voting and returns the remaining players |
| GameLogic.Registry.DuelRoundAnswer | gameLogic.js:141-177 | the game and result are those of `Rules.Duel` on the old game |
| GameLogic.Registry.GameOver | gameLogic.js:179-191 | returns the remaining players with strength at least 3, in order (empty for the original's `false`) |
| GameLogic.Registry.StopGame | gameLogic.js:193-195 | deletes the game, after which it is not available |
| Bot.BroadcastContents | index.js:93-98 | sending to all players is one notice per recipient, in order |
| Bot.ButtonsForContents | index.js:100-113 | one button per remaining player with a known profile, in the players' order (the payloads are a subsequence of the players, with no repetition when the players have none), titled by first and last name with the player ID as payload |
| Bot.VoteButtons | index.js:100-130 | the layout is a single "Voting" element holding all the buttons |
| Bot.NextPhaseCases | index.js:430-456 | the decision order: game over iff a remaining player has strength ≥ 3; otherwise a round win iff exactly one remains, a duel iff none or two remain, a standard round iff three or more remain |
| Bot.Messenger.constructor | index.js:156-177 | the bot starts with a fresh registry, no sessions, nothing sent, no timer and no profile lookup pending |
| Bot.Messenger.OnNewRound | index.js:430-456 | `NewRoundEffect`: game over: announce and delete; sole survivor: crown, announce, emit "new round" without an ID; duel: announce, open voting, send duel buttons to the duellists; else start a standard round; a missing game throws |
| Bot.Messenger.EndGame | index.js:431-437 | `GameOverEffect`: the winners' names are looked up first, so a missing profile throws with nothing sent and the game kept; otherwise all players hear the winners and the game is deleted |
| Bot.Messenger.CrownSurvivor | index.js:439-442 | `RoundWonEffect`: crowns the first remaining player; the name lookup comes after the crowning (gameLogic.js:82-86), so a missing profile throws with the crowning kept; otherwise all players hear the winner and "new round" is emitted without an ID |
| Bot.Messenger.OpenDuel | index.js:443-451 | `DuelOpenEffect`: the duellists' names are looked up first (gameLogic.js:49-52), so a missing profile throws with nothing changed; otherwise all players hear who duels, voting opens and each duellist gets the duel buttons |
| Bot.Messenger.StartStandardRound | index.js:458-486 | sends the intro, opens voting, and schedules the buttons at 2490 ms and the close at 32490 ms |
| Bot.Messenger.OnDuelRoundOver | index.js:397-428 | `DuelRoundOverEffect`: announces a winner, two winners or two losers to all players (nothing for `{}`), then emits "new round" for the game; a missing profile of a named player or a missing game throws before anything is sent or emitted |
| Bot.Messenger.OnPostback | index.js:221-253 | the sender's current game is required; friendly/hostile or fewer than three remaining goes to the duel and emits "duel round over" for a non-false result; otherwise an accepted vote is stored and broadcast (a voter without a stored profile throws after the vote is stored) and a rejected one only tells the sender |
| Bot.Messenger.OnAttachment | index.js:265-271 | a message with an attachment gets the "text messages only" reply and changes nothing else |
| Bot.Messenger.OnIntent | index.js:299-365 | has the effect of the intent's handler (`NewGameEffect`, `JoinGameEffect`, `StartGameEffect`, `ListOfPlayersEffect`); an unrecognised intent gets "Something is wrong" and changes nothing else |
| Bot.Messenger.NewGame | index.js:299-317 | refused while the current game is live; otherwise it creates game number `counter`, makes it current, replies with its number and looks up the profile |
| Bot.Messenger.JoinGame | index.js:318-346 | a missing number throws; an unavailable game is refused; a player is told they already joined; a newcomer gets the rules link, joins, makes it current, is replied to and has the profile looked up |
| Bot.Messenger.StartGame | index.js:347-355 | with a current game starts it and emits "new round"; without one replies "not joined" |
| Bot.Messenger.ListOfPlayers | index.js:356-362 | `ListOfPlayersEffect`: replies with the players of the current game, or "not joined"; a missing game or a player without a stored profile (gameLogic.js:64-65) throws with no reply |
| Bot.Messenger.OnTimer | index.js:462-485 | a fired timer leaves the pending list and has the effect of its task: `SendButtonsEffect` for the buttons, `CloseVotingEffect` for the close of voting |
| Bot.Messenger.SendButtons | index.js:462-467 | the prepared buttons go to the players of the game at firing time |
| Bot.Messenger.CloseVotingRound | index.js:468-485 | `CloseVotingEffect`: closes voting, announces it, tallies, looks up the losers' names, announces them and emits "new round"; a missing profile (index.js:476) throws after the tally with the losers unannounced and nothing emitted |
| Bot.Messenger.StopVotingRound | index.js:470-471 | closes voting and tells every player |
| Bot.Messenger.TallyRound | index.js:472-480 | replaces the game by its tally; with every loser's profile stored, tells every player the losers and emits "new round", otherwise throws with nothing sent |
| Bot.Messenger.OnProfile | index.js:331-342 | an error answer stores nothing; otherwise the profile is stored, and after a join the game hears that the player joined |
| Bot.Messenger.Deliver | index.js:397-456 | has the effect of the event's handler (`NewRoundEffect` or `DuelRoundOverEffect`); what it emits has lower rank |
| Bot.Messenger.Settle | index.js:397-456 | delivering emitted events ends with no event pending |
| Bot.Messenger.Handle | index.js:221-253 | one input runs to completion and keeps the bot's invariant |

The invariant `Bot.Messenger.Valid` holds before and after every handler. It
contains:

- the registry's invariant: every game ID is below the counter, and every
  game is well formed;
- well formed means:
  - the remaining players are players;
  - every player has strength at least 1;
  - at most one duel ballot is stored, exactly when the toggle is set;
  - duel ballots come from players;
- every session points below the counter and, if its game is live, at a
  game the player is in;
- the rosters have no repetitions.

## Left out

- HTTP, the webhook parsing and signature check, and `fbMessage`: sending is
  an abstract notice appended to the outbox, and the message texts of
  `strings.js` are abstract tokens.
- The Wit.ai call: a text message arrives with its intent and number entity
  already parsed. A message without an intent, which makes the original
  throw, is not modelled.
- The Graph profile fetch: its answer arrives as an input.
- A message with neither text nor attachment does nothing in the original,
  so it has no input here.
- `getAllPlayers` (gameLogic.js:43-44) is never called by the bot and is
  left out.
- `setTimeout` ordering: pending timers may be fired in any order, not only
  by due time. There is no timer cancellation, and the source has none.
- EventEmitter is modelled as synchronous tail delivery, which matches the
  original because every emit is the handler's last action.
- Sessions are a map from player to current game ID. The time-stamped
  session IDs of `findOrCreateSession` are not modelled.
- Display names: notices carry player IDs where the original sends
  `first_name last_name`. Whether the lookup succeeds is modelled: a player
  without a stored profile makes the handler throw, as described above.
  `voteButtons` alone skips a missing profile, and that skip is modelled.
- Process exit: an exception the original does not catch inside a
  `setTimeout` callback ends the Node process, and every game and session
  is lost with it. This happens when `SendButtons` or the synchronous part
  of `CloseVotingRound` dereferences a game that is gone. A second
  "Start Game" or a duel during a standard round can delete the game while
  its timers are pending. A throw inside a promise callback (the tally's
  continuation, the profile answer) is an unhandled rejection. The model
  ends such a handler with `Threw` and keeps every other game and session;
  it does not capture the loss of the whole process state.
- Rules.Lookup: a missing strength reads as 0 where JavaScript gives `NaN`.
  The invariant keeps every player's strength present, so the difference is
  never observed on a remaining player.
- Array aliasing: after a resolved duel, the original's `remainingPlayers`
  is the same array object as `players`. The model uses values, and a later
  join adds the player once (see Findings).
- `witActions.js` is not part of this model. index.js:20 loads it and
  index.js:183-187 hands it to the Wit client, but nothing in the modelled
  code calls its functions, which use names that are not defined.
- The HTTP callbacks that only log are left out.

## Findings

| source | as written | input that shows it | evidently intended | confidence | as-written member | corrected member |
|---|---|---|---|---|---|---|
| gameLogic.js:170 | `remainingPlayers = players` makes both fields one array, so the two pushes of `addPlayer` (gameLogic.js:36-37) both land in it | players [A, B], duel resolved, then C joins: players become [A, B, C, C] | the roster is reset to a copy, and C is added once to each roster | medium, not executed | Rules.JoinAfterDuelAsWritten | Rules.JoinAfterDuelAddsOnce |
