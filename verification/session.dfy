/**
  Runs of the game: sequences of presses, and sequences of presses and
  restarts. Each round carries the player's move and the computer move that
  is drawn for the following round.
 */
module Session {
  import opened Moves
  import opened Game

  datatype Round = Round(playerMove: Move, nextComputerMove: Move)

  datatype Event =
    | Pressed(round: Round)
    | Restarted(nextComputerMove: Move)

  /** The state after pressing through `rounds` in order, starting from `s`. */
  function PlayAll(s: GameState, rounds: seq<Round>): (t: GameState)
    ensures t.moves == s.moves + |rounds|
    ensures t.playerHasToWin == (s.playerHasToWin != (|rounds| % 2 == 1))
    ensures |rounds| > 0 ==> t.computerMove == rounds[|rounds| - 1].nextComputerMove
    ensures |rounds| == 0 ==> t == s
    decreases |rounds|
  {
    if |rounds| == 0 then s
    else PlayAll(Press(s, rounds[0].playerMove, rounds[0].nextComputerMove), rounds[1..])
  }

  /** The outcome of each press of `rounds`, in order. */
  function Results(s: GameState, rounds: seq<Round>): (rs: seq<MatchResult>)
    ensures |rs| == |rounds|
    decreases |rounds|
  {
    if |rounds| == 0 then []
    else
      [PressResult(s, rounds[0].playerMove)]
        + Results(Press(s, rounds[0].playerMove, rounds[0].nextComputerMove), rounds[1..])
  }

  /** The objective in force at each press of `rounds`, in order. */
  function Objectives(s: GameState, rounds: seq<Round>): (hs: seq<bool>)
    ensures |hs| == |rounds|
    decreases |rounds|
  {
    if |rounds| == 0 then []
    else [s.playerHasToWin] + Objectives(Press(s, rounds[0].playerMove, rounds[0].nextComputerMove), rounds[1..])
  }

  /** Number of occurrences of `x` in `rs`. */
  function Count(rs: seq<MatchResult>, x: MatchResult): (n: nat)
    ensures n <= |rs|
  {
    if |rs| == 0 then 0
    else (if rs[0] == x then 1 else 0) + Count(rs[1..], x)
  }

  /** The state after a sequence of presses and restarts. */
  function Run(s: GameState, events: seq<Event>): GameState
    decreases |events|
  {
    if |events| == 0 then s
    else
      var next := match events[0]
        case Pressed(r) => Press(s, r.playerMove, r.nextComputerMove)
        case Restarted(m) => Reset(s, m);
      Run(next, events[1..])
  }

  // ---------------------------------------------------------------------
  // Properties of runs
  // ---------------------------------------------------------------------

  /** Wins and losses never together outnumber the rounds played. */
  lemma {:induction false} WinsPlusLossesAtMostRounds(rs: seq<MatchResult>)
    ensures Count(rs, Win) + Count(rs, Lose) <= |rs|
  {
    if |rs| > 0 {
      WinsPlusLossesAtMostRounds(rs[1..]);
    }
  }

  /** The score moves by the number of wins minus the number of losses. */
  lemma {:induction false} ScoreIsWinsMinusLosses(s: GameState, rounds: seq<Round>)
    ensures PlayAll(s, rounds).score
              == s.score + Count(Results(s, rounds), Win) - Count(Results(s, rounds), Lose)
    decreases |rounds|
  {
    if |rounds| > 0 {
      var s' := Press(s, rounds[0].playerMove, rounds[0].nextComputerMove);
      ScoreIsWinsMinusLosses(s', rounds[1..]);
      PressScoresByResult(s, rounds[0].playerMove, rounds[0].nextComputerMove);
      var rs := Results(s, rounds);
      assert rs[1..] == Results(s', rounds[1..]);
    }
  }

  /** The score moves by at most one point per press. */
  lemma ScoreChangeBoundedByRounds(s: GameState, rounds: seq<Round>)
    ensures -|rounds| <= PlayAll(s, rounds).score - s.score <= |rounds|
  {
    ScoreIsWinsMinusLosses(s, rounds);
    WinsPlusLossesAtMostRounds(Results(s, rounds));
  }

  /** From a fresh game, after N presses the score lies between -N and N. */
  lemma ScoreWithinMovesFromStart(firstMove: Move, firstHasToWin: bool, rounds: seq<Round>)
    ensures var t := PlayAll(Initial(firstMove, firstHasToWin), rounds);
      t.moves == |rounds| && -t.moves <= t.score <= t.moves
  {
    ScoreChangeBoundedByRounds(Initial(firstMove, firstHasToWin), rounds);
  }

  /** The objective alternates: it is the initial one at even presses and the other one at odd presses. */
  lemma {:induction false} ObjectivesAlternate(s: GameState, rounds: seq<Round>)
    ensures forall i :: 0 <= i < |rounds| ==>
              Objectives(s, rounds)[i] == (s.playerHasToWin == (i % 2 == 0))
    decreases |rounds|
  {
    if |rounds| > 0 {
      var s' := Press(s, rounds[0].playerMove, rounds[0].nextComputerMove);
      ObjectivesAlternate(s', rounds[1..]);
      var hs := Objectives(s, rounds);
      forall i | 0 < i < |rounds|
        ensures hs[i] == (s.playerHasToWin == (i % 2 == 0))
      {
        assert hs[i] == Objectives(s', rounds[1..])[i - 1];
      }
    }
  }

  /** Consecutive presses have opposite objectives. */
  lemma ConsecutiveObjectivesDiffer(s: GameState, rounds: seq<Round>, i: int)
    requires 0 <= i < |rounds| - 1
    ensures Objectives(s, rounds)[i] != Objectives(s, rounds)[i + 1]
  {
    ObjectivesAlternate(s, rounds);
  }

  /**
    The alert is up after a run of presses exactly when it was up before, or
    the count passed through `MaximumMoves` during the run.
   */
  lemma {:induction false} AlertAfterPresses(s: GameState, rounds: seq<Round>)
    ensures PlayAll(s, rounds).gameOverAlert <==>
              s.gameOverAlert || (s.moves < MaximumMoves <= s.moves + |rounds|)
    decreases |rounds|
  {
    if |rounds| > 0 {
      AlertAfterPresses(Press(s, rounds[0].playerMove, rounds[0].nextComputerMove), rounds[1..]);
    }
  }

  /** From a fresh game the alert is up exactly from the tenth press on. */
  lemma GameOverFromTenthPress(firstMove: Move, firstHasToWin: bool, rounds: seq<Round>)
    ensures PlayAll(Initial(firstMove, firstHasToWin), rounds).gameOverAlert <==> |rounds| >= MaximumMoves
  {
    AlertAfterPresses(Initial(firstMove, firstHasToWin), rounds);
  }

  /**
    Presses are not rejected after the game is over: from a fresh game,
    eleven presses give a count of eleven.
   */
  lemma EleventhPressStillCounts(firstMove: Move, firstHasToWin: bool, rounds: seq<Round>)
    requires |rounds| == MaximumMoves + 1
    ensures PlayAll(Initial(firstMove, firstHasToWin), rounds).moves == MaximumMoves + 1
    ensures PlayAll(Initial(firstMove, firstHasToWin), rounds).gameOverAlert
  {
    GameOverFromTenthPress(firstMove, firstHasToWin, rounds);
  }

  /** The invariant every reachable state keeps: a non-negative count bounding the score. */
  predicate ScoreWithinMoves(s: GameState) {
    0 <= s.moves && -s.moves <= s.score <= s.moves
  }

  /** Presses and restarts keep the score within the move count. */
  lemma {:induction false} RunKeepsScoreWithinMoves(s: GameState, events: seq<Event>)
    requires ScoreWithinMoves(s)
    ensures ScoreWithinMoves(Run(s, events))
    decreases |events|
  {
    if |events| > 0 {
      var next := match events[0]
        case Pressed(r) => Press(s, r.playerMove, r.nextComputerMove)
        case Restarted(m) => Reset(s, m);
      assert ScoreWithinMoves(next);
      RunKeepsScoreWithinMoves(next, events[1..]);
    }
  }

  /** Every state reached from a fresh game keeps the score within the move count. */
  lemma ReachableScoreWithinMoves(firstMove: Move, firstHasToWin: bool, events: seq<Event>)
    ensures var t := Run(Initial(firstMove, firstHasToWin), events);
      0 <= t.moves && -t.moves <= t.score <= t.moves
  {
    RunKeepsScoreWithinMoves(Initial(firstMove, firstHasToWin), events);
  }

  /** A restart followed by presses plays like a fresh game, except for the alert flag it inherits. */
  lemma {:induction false} RestartThenPlay(s: GameState, m: Move, rounds: seq<Round>)
    ensures var t := PlayAll(Reset(s, m), rounds);
      t.moves == |rounds|
      && t.score == Count(Results(Reset(s, m), rounds), Win) - Count(Results(Reset(s, m), rounds), Lose)
      && (t.gameOverAlert <==> s.gameOverAlert || |rounds| >= MaximumMoves)
  {
    ScoreIsWinsMinusLosses(Reset(s, m), rounds);
    AlertAfterPresses(Reset(s, m), rounds);
  }
}
