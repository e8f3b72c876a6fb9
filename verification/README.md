# Rock-Paper-Scissors rules engine in Dafny

A model of the rules of a single-player Rock-Paper-Scissors game. Each round
the computer shows a move and the player is told either to win or to lose
against it. The player then presses one of three buttons. A round that meets
the objective scores +1, a round that misses it scores -1, and a tie scores
nothing. After ten presses a game-over alert appears, and its Restart button
resets the game.

The model has three modules:

- `Moves` (`moves.dfy`) holds the moves, the outcomes, the button labels and
  the round resolver. The resolver is checked against a "beats" relation
  that is defined separately, on the cycle rock -> paper -> scissors -> rock.
- `Game` (`game.dfy`) holds the view's state (move count, computer move,
  objective, score, alert flag) and its transitions `Press`, `NextMove` and
  `Reset`. These are pure functions. The random computer move is an explicit
  argument.
- `Session` (`session.dfy`) plays sequences of presses and restarts. It proves
  that the score is wins minus losses, that the objective alternates, when the
  alert is raised, and that the score never leaves `[-moves, moves]`.

The model follows the code as written, including four behaviours that a
reader might not expect:

- A press after game over is not rejected. The count and the score still
  change (`PressAfterGameOverIsNotRejected`, `EleventhPressStillCounts`).
- The alert is raised by an equality test with the maximum. Only the press
  that brings the count to exactly 10 raises it.
- On the tenth press the next round is still prompted. A new computer move is
  drawn and the objective flips.
- `Reset` does not clear the alert flag. It also flips the objective, because
  it prompts the next round the same way a press does.

## Model

| member | source | states |
|---|---|---|
| Moves.ResultWhenHasToWin | RockPaperScissors/ContentView.swift:108-119 | when the player has to win: a tie exactly when the moves are equal, a win exactly when the player's move beats the computer's, a loss exactly when the computer's move beats the player's |
| Moves.MatchResultFor | RockPaperScissors/ContentView.swift:121-132 | a tie exactly on equal moves; a win exactly when the player's move beats the computer's (objective win) or is beaten by it (objective lose); the loss case is the mirror image |
| Moves.BeatsIsATournament | RockPaperScissors/ContentView.swift:109-116 | no move beats itself, and of two different moves exactly one beats the other |
| Moves.BeatsTable | RockPaperScissors/ContentView.swift:109-116 | the cyclic relation is exactly paper over rock, scissors over paper, rock over scissors |
| Moves.EqualMovesTie | RockPaperScissors/ContentView.swift:108-132 | equal moves tie, with either objective |
| Moves.ResolverAntisymmetric | RockPaperScissors/ContentView.swift:108-119 | swapping the computer's and the player's moves swaps win and lose and keeps ties |
| Moves.OneWinOneLoseOneTie | RockPaperScissors/ContentView.swift:108-119 | against each computer move exactly one player move wins, one loses and one ties, and these are three different moves |
| Moves.InvertInvolution | RockPaperScissors/ContentView.swift:128-131 | the win/lose inversion undoes itself and keeps ties as ties |
| Moves.HasToWinPassesThrough | RockPaperScissors/ContentView.swift:122-126 | with the objective "win" the round outcome is the has-to-win outcome unchanged |
| Moves.HasToLoseInverts | RockPaperScissors/ContentView.swift:128-131 | with the objective "lose" the round outcome is the inversion of the has-to-win outcome |
| Moves.RockAgainstPaperExample | RockPaperScissors/ContentView.swift:108-132 | computer rock against player paper is a win with objective "win" and a loss with objective "lose" |
| Moves.MoveName | RockPaperScissors/ContentView.swift:13-19 | each move's label is a capitalised word whose initial (R, P or S) identifies the move; the property this gives, that different moves have different labels, is stated by `Moves.MoveNameInjective` |
| Moves.Invert | RockPaperScissors/ContentView.swift:129-131 | the inversion keeps a tie as a tie and turns a win or a loss into the other outcome; that it undoes itself is stated by `Moves.InvertInvolution` |
| Moves.MoveNameInjective | RockPaperScissors/ContentView.swift:13-19 | different moves have different button labels |
| Game.Initial | RockPaperScissors/ContentView.swift:32-39 | a fresh game has count 0, score 0 and no alert, with the given first move and objective |
| Game.ScoreChange | RockPaperScissors/ContentView.swift:79-83 | a round moves the score by at most one point: +1 exactly on a win, 0 exactly on a tie |
| Game.PressResult | RockPaperScissors/ContentView.swift:76 | the outcome of a press is a tie exactly on the computer's own move, and otherwise a win exactly when whether the pressed move beats the computer's move agrees with the objective |
| Game.NextMove | RockPaperScissors/ContentView.swift:97-100 | the next round gets the supplied computer move and the opposite objective; count, score and alert are unchanged |
| Game.Press | RockPaperScissors/ContentView.swift:73-95 | the count goes up by one; the score goes up by one when the move meets the objective, down by one when it misses, and stays on a tie; the alert is up afterwards exactly when it was up before or the new count is exactly 10; the objective flips and the computer move is replaced, also on the tenth press |
| Game.Reset | RockPaperScissors/ContentView.swift:102-106 | count and score become 0, the alert flag is kept, the objective flips and the computer move is replaced |
| Game.PressScoresByResult | RockPaperScissors/ContentView.swift:76-83 | a press adds +1, -1 or 0 to the score according to the round's outcome |
| Game.PressAfterGameOverIsNotRejected | RockPaperScissors/ContentView.swift:73-91 | with the alert up, pressing the move that meets the objective (the move that beats the computer's when the player has to win, the move it beats when the player has to lose) is still a win: the count goes up by one, the score gains a point, and the alert stays up |
| Game.AlertRaisedOnlyAtMaximum | RockPaperScissors/ContentView.swift:86-91 | with no alert up, a press raises it exactly when the count before the press is 9 |
| Session.PlayAll | RockPaperScissors/ContentView.swift:73-100 | after N presses the count has grown by N, the objective has flipped N times, and the computer move is the last one supplied |
| Session.WinsPlusLossesAtMostRounds | RockPaperScissors/ContentView.swift:79-83 | a sequence of rounds holds at most as many wins plus losses as it has rounds |
| Session.ScoreIsWinsMinusLosses | RockPaperScissors/ContentView.swift:79-86 | after a sequence of presses the score has changed by the number of wins minus the number of losses |
| Session.ScoreChangeBoundedByRounds | RockPaperScissors/ContentView.swift:79-86 | N presses change the score by at most N in either direction |
| Session.ScoreWithinMovesFromStart | RockPaperScissors/ContentView.swift:32-39 | from a fresh game, after N presses the count is N and the score lies in [-N, N] |
| Session.ObjectivesAlternate | RockPaperScissors/ContentView.swift:94-100 | the objective at press i is the initial objective when i is even and the opposite one when i is odd |
| Session.ConsecutiveObjectivesDiffer | RockPaperScissors/ContentView.swift:97-100 | two consecutive presses have opposite objectives |
| Session.AlertAfterPresses | RockPaperScissors/ContentView.swift:86-91 | after a sequence of presses the alert is up exactly when it was up before or the count passed through 10 during the sequence |
| Session.GameOverFromTenthPress | RockPaperScissors/ContentView.swift:86-91 | from a fresh game the alert is up after N presses exactly when N is at least the maximum of 10 set at line 32 |
| Session.EleventhPressStillCounts | RockPaperScissors/ContentView.swift:73-91 | from a fresh game, eleven presses give a count of eleven with the alert up |
| Session.RunKeepsScoreWithinMoves | RockPaperScissors/ContentView.swift:73-106 | presses and restarts keep the count non-negative and the score within [-count, count] |
| Session.ReachableScoreWithinMoves | RockPaperScissors/ContentView.swift:33-37 | every state reached from a fresh game by presses and restarts has its score within [-count, count] |
| Session.RestartThenPlay | RockPaperScissors/ContentView.swift:102-106 | after a restart, N presses give count N and a score of wins minus losses; the alert is up when it was up before the restart or N is at least 10 |

## Left out

- Random choice of the computer's move and of the first objective (`Move.getRandomMove`, `Bool.random()`). These are arguments of `Initial`, `Press` and `Reset`, and nothing is said about their distribution.
- The SwiftUI view: `body`, the labels, the buttons, the "Win"/"Lose" prompt, the alert text and `ContentView_Previews`. These are presentation only.
- Dismissing the alert. SwiftUI clears the alert flag through the alert's binding when the alert closes. That framework behaviour is not modelled, so in the model only the starting state has the flag cleared.
- Game.Press: Swift's `Int` is 64 bits wide and traps on overflow. The model's count and score are unbounded integers, which matters only after about 9.2 * 10^18 presses.
