/**
  Moves and round resolution of the Rock-Paper-Scissors game.

  The game compares the computer's move with the player's move. The player is
  told each round either to win or to lose against the computer; the resolver
  first decides the round as if the player had to win, and inverts win and
  lose when the player has to lose.

  The "beats" relation is defined here independently of the resolver, on the
  cyclic order rock -> paper -> scissors -> rock: a move beats the move just
  before it in that cycle.
 */
module Moves {

  datatype Move = Rock | Paper | Scissors

  datatype MatchResult = Lose | Win | Tie

  /**
    The label shown on the button for a move: a capitalised word whose
    initial, R, P or S, already tells the three moves apart.
   */
  function MoveName(m: Move): (r: string)
    ensures |r| > 1 && 'A' <= r[0] <= 'Z'
    ensures r[0] == "RPS"[CycleIndex(m)]
  {
    match m
    case Rock => "Rock"
    case Paper => "Paper"
    case Scissors => "Scissors"
  }

  /** Position of a move in the cycle rock -> paper -> scissors. */
  function CycleIndex(m: Move): (i: int)
    ensures 0 <= i < 3
  {
    match m
    case Rock => 0
    case Paper => 1
    case Scissors => 2
  }

  /** `a` beats `b` when `a` comes right after `b` in the cycle. */
  predicate Beats(a: Move, b: Move) {
    (CycleIndex(a) - CycleIndex(b)) % 3 == 1
  }

  /** The one move that beats `m`. */
  function Beater(m: Move): (r: Move)
    ensures Beats(r, m)
    ensures forall x :: Beats(x, m) ==> x == r
  {
    match m
    case Rock => Paper
    case Paper => Scissors
    case Scissors => Rock
  }

  /** The one move that `m` beats. */
  function Victim(m: Move): (r: Move)
    ensures Beats(m, r)
    ensures forall x :: Beats(m, x) ==> x == r
  {
    match m
    case Rock => Scissors
    case Paper => Rock
    case Scissors => Paper
  }

  /**
    The outcome for the player when the player has to win, written as the
    chain of tests the game performs: six winning or losing pairs, and a tie
    for everything else.
   */
  function ResultWhenHasToWin(computerMove: Move, playerMove: Move): (r: MatchResult)
    ensures r == Tie <==> computerMove == playerMove
    ensures r == Win <==> Beats(playerMove, computerMove)
    ensures r == Lose <==> Beats(computerMove, playerMove)
  {
    if computerMove == Rock && playerMove == Paper then Win
    else if computerMove == Rock && playerMove == Scissors then Lose
    else if computerMove == Paper && playerMove == Rock then Lose
    else if computerMove == Paper && playerMove == Scissors then Win
    else if computerMove == Scissors && playerMove == Rock then Win
    else if computerMove == Scissors && playerMove == Paper then Lose
    else
      // every pair of different moves was matched above
      assert computerMove == playerMove by {
        assert playerMove.Rock? || playerMove.Paper? || playerMove.Scissors?;
      }
      Tie
  }

  /** Swaps win and lose; a tie stays a tie. */
  function Invert(r: MatchResult): (r': MatchResult)
    ensures r' == Tie <==> r == Tie
    ensures r != Tie ==> r' != r
  {
    match r
    case Win => Lose
    case Lose => Win
    case Tie => Tie
  }

  /**
    The outcome of a round for the player's objective: the has-to-win outcome
    when the player has to win, and its inversion when the player has to lose.
   */
  function MatchResultFor(computerMove: Move, playerMove: Move, playerHasToWin: bool): (r: MatchResult)
    ensures r == Tie <==> computerMove == playerMove
    ensures r == Win <==>
              if playerHasToWin then Beats(playerMove, computerMove) else Beats(computerMove, playerMove)
    ensures r == Lose <==>
              if playerHasToWin then Beats(computerMove, playerMove) else Beats(playerMove, computerMove)
  {
    var whenHasToWin := ResultWhenHasToWin(computerMove, playerMove);
    if playerHasToWin then whenHasToWin
    else if whenHasToWin == Win then Lose
    else if whenHasToWin == Lose then Win
    else Tie
  }

  // ---------------------------------------------------------------------
  // Properties of the beats relation and of the resolver
  // ---------------------------------------------------------------------

  /**
    No move beats itself, and of two different moves exactly one beats the
    other; the last clause is the asymmetry that follows from the first two.
   */
  lemma BeatsIsATournament(a: Move, b: Move)
    ensures !Beats(a, a)
    ensures a != b ==> (Beats(a, b) <==> !Beats(b, a))
    ensures Beats(a, b) ==> !Beats(b, a)
  {
  }

  /** The beats relation is the familiar one: paper covers rock, scissors cut paper, rock blunts scissors. */
  lemma BeatsTable(a: Move, b: Move)
    ensures Beats(a, b) <==>
              (a == Paper && b == Rock) || (a == Scissors && b == Paper) || (a == Rock && b == Scissors)
  {
  }

  /** Equal moves always tie, whatever the objective. */
  lemma EqualMovesTie(m: Move, playerHasToWin: bool)
    ensures ResultWhenHasToWin(m, m) == Tie
    ensures MatchResultFor(m, m, playerHasToWin) == Tie
  {
  }

  /** Swapping the computer's and the player's moves swaps win and lose. */
  lemma ResolverAntisymmetric(computerMove: Move, playerMove: Move)
    ensures ResultWhenHasToWin(playerMove, computerMove) == Invert(ResultWhenHasToWin(computerMove, playerMove))
  {
  }

  /**
    Against any computer move, exactly one player move wins (the one that
    beats it), exactly one loses (the one it beats) and exactly one ties (the
    same move), and the three are different.
   */
  lemma OneWinOneLoseOneTie(computerMove: Move, playerMove: Move)
    ensures ResultWhenHasToWin(computerMove, playerMove) == Win <==> playerMove == Beater(computerMove)
    ensures ResultWhenHasToWin(computerMove, playerMove) == Lose <==> playerMove == Victim(computerMove)
    ensures ResultWhenHasToWin(computerMove, playerMove) == Tie <==> playerMove == computerMove
    ensures Beater(computerMove) != Victim(computerMove)
    ensures Beater(computerMove) != computerMove && Victim(computerMove) != computerMove
  {
  }

  /** Inverting twice gives back the original outcome. */
  lemma InvertInvolution(r: MatchResult)
    ensures Invert(Invert(r)) == r
    ensures Invert(r) == Tie <==> r == Tie
  {
  }

  /** When the player has to win, the round outcome is exactly the has-to-win outcome. */
  lemma HasToWinPassesThrough(computerMove: Move, playerMove: Move)
    ensures MatchResultFor(computerMove, playerMove, true) == ResultWhenHasToWin(computerMove, playerMove)
  {
  }

  /** When the player has to lose, the outcome is the inversion of the has-to-win outcome. */
  lemma HasToLoseInverts(computerMove: Move, playerMove: Move)
    ensures MatchResultFor(computerMove, playerMove, false) == Invert(ResultWhenHasToWin(computerMove, playerMove))
    ensures Invert(MatchResultFor(computerMove, playerMove, false)) == ResultWhenHasToWin(computerMove, playerMove)
  {
  }

  /** Computer rock, player paper: a win when the player has to win, a loss when the player has to lose. */
  lemma RockAgainstPaperExample()
    ensures MatchResultFor(Rock, Paper, true) == Win
    ensures MatchResultFor(Rock, Paper, false) == Lose
  {
  }

  /** Different moves get different labels. */
  lemma MoveNameInjective(a: Move, b: Move)
    ensures MoveName(a) == MoveName(b) ==> a == b
  {
    if MoveName(a) == MoveName(b) {
      assert "RPS"[CycleIndex(a)] == "RPS"[CycleIndex(b)];
    }
  }
}
