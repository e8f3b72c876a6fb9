/**
  The game's state and its three transitions: a button press, the prompt for
  the next round, and the restart.

  The computer's next move is drawn at random in the game; here it is an
  explicit argument of every transition that replaces it, and the initial
  move and initial objective are arguments of `Initial`.

  A press is processed whatever the state: there is no test of the game-over
  flag before the score and the move count change.
 */
module Game {
  import opened Moves

  /** Number of presses after which the game-over alert is raised. */
  const MaximumMoves: int := 10

  /**
    The view's state: presses counted so far, the computer's current move,
    whether the player has to win (rather than lose) this round, the score,
    and whether the game-over alert is up.
   */
  datatype GameState = GameState(
    moves: int,
    computerMove: Move,
    playerHasToWin: bool,
    score: int,
    gameOverAlert: bool)

  /** The state when the view first appears, for a given first move and first objective. */
  function Initial(firstMove: Move, firstHasToWin: bool): (s: GameState)
    ensures s.moves == 0 && s.score == 0 && !s.gameOverAlert
    ensures s.computerMove == firstMove && s.playerHasToWin == firstHasToWin
  {
    GameState(0, firstMove, firstHasToWin, 0, false)
  }

  /** How a round's outcome changes the score. */
  function ScoreChange(r: MatchResult): (d: int)
    ensures -1 <= d <= 1
    ensures d == 0 <==> r == Tie
    ensures d == 1 <==> r == Win
  {
    match r
    case Win => 1
    case Lose => -1
    case Tie => 0
  }

  /**
    The outcome of pressing `playerMove` in state `s`: a tie on the computer's
    own move, otherwise a win exactly when whether the move beats the
    computer's agrees with the objective.
   */
  function PressResult(s: GameState, playerMove: Move): (r: MatchResult)
    ensures r == Tie <==> playerMove == s.computerMove
    ensures r == Win <==> playerMove != s.computerMove && Beats(playerMove, s.computerMove) == s.playerHasToWin
  {
    MatchResultFor(s.computerMove, playerMove, s.playerHasToWin)
  }

  /** Prompts for the next round: a new computer move and the opposite objective. */
  function NextMove(s: GameState, nextComputerMove: Move): (t: GameState)
    ensures t.computerMove == nextComputerMove
    ensures t.playerHasToWin != s.playerHasToWin
    ensures t.moves == s.moves && t.score == s.score && t.gameOverAlert == s.gameOverAlert
  {
    s.(computerMove := nextComputerMove, playerHasToWin := !s.playerHasToWin)
  }

  /**
    A press of the button for `playerMove`: the round is scored, the move
    count goes up by one, the alert is raised when the count reaches exactly
    `MaximumMoves`, and the next round is prompted, also on the last press.
   */
  function Press(s: GameState, playerMove: Move, nextComputerMove: Move): (t: GameState)
    ensures t.moves == s.moves + 1
    ensures t.score - s.score ==
              if playerMove == s.computerMove then 0
              else if Beats(playerMove, s.computerMove) == s.playerHasToWin then 1
              else -1
    ensures t.gameOverAlert <==> s.gameOverAlert || s.moves + 1 == MaximumMoves
    ensures t.playerHasToWin != s.playerHasToWin
    ensures t.computerMove == nextComputerMove
  {
    var result := PressResult(s, playerMove);
    var scored :=
      if result == Win then s.(score := s.score + 1)
      else if result == Lose then s.(score := s.score - 1)
      else s;
    var counted := scored.(moves := scored.moves + 1);
    var alerted := if counted.moves == MaximumMoves then counted.(gameOverAlert := true) else counted;
    NextMove(alerted, nextComputerMove)
  }

  /**
    The restart: count and score back to zero, and the next round prompted,
    which flips the objective. The alert flag is left as it is.
   */
  function Reset(s: GameState, nextComputerMove: Move): (t: GameState)
    ensures t.moves == 0 && t.score == 0
    ensures t.gameOverAlert == s.gameOverAlert
    ensures t.playerHasToWin != s.playerHasToWin
    ensures t.computerMove == nextComputerMove
  {
    NextMove(s.(moves := 0, score := 0), nextComputerMove)
  }

  // ---------------------------------------------------------------------
  // Single-step properties
  // ---------------------------------------------------------------------

  /** A press scores by its outcome: +1 for a win, -1 for a loss, nothing for a tie. */
  lemma PressScoresByResult(s: GameState, playerMove: Move, nextComputerMove: Move)
    ensures Press(s, playerMove, nextComputerMove).score == s.score + ScoreChange(PressResult(s, playerMove))
  {
  }

  /**
    Presses after the alert is up are still scored and counted: the move that
    meets the objective (the one beating the computer's move when the player
    has to win, the one it beats when the player has to lose) still gains a
    point, and the count still goes up.
   */
  lemma PressAfterGameOverIsNotRejected(s: GameState, nextComputerMove: Move)
    requires s.gameOverAlert
    ensures var winning := if s.playerHasToWin then Beater(s.computerMove) else Victim(s.computerMove);
      var t := Press(s, winning, nextComputerMove);
      PressResult(s, winning) == Win && t.moves == s.moves + 1 && t.score == s.score + 1 && t.gameOverAlert
  {
  }

  /** Only the press that brings the count to exactly `MaximumMoves` raises the alert. */
  lemma AlertRaisedOnlyAtMaximum(s: GameState, playerMove: Move, nextComputerMove: Move)
    requires !s.gameOverAlert
    ensures Press(s, playerMove, nextComputerMove).gameOverAlert <==> s.moves == MaximumMoves - 1
  {
  }
}
