/**
 * The mutable board of the checkers engine (class `BitBoard`).
 *
 * The object holds the four masks and whose turn it is, and its methods
 * update them in place. Each method is specified by the function of module
 * Rules that gives the state it leaves; the properties of those functions
 * are proved in module MoveProperties. Where the engine prints a notice, the
 * methods here return it as an Event instead.
 */
module Game {
  import opened Bits
  import opened Rules

  /** (start, end) comes before (start', end') in the scan order of validMoves. */
  predicate Before(a: (int, int), b: (int, int))
  {
    a.0 < b.0 || (a.0 == b.0 && a.1 < b.1)
  }

  class BitBoard {
    var player1Pieces: nat
    var player2Pieces: nat
    var player1Kings: nat
    var player2Kings: nat
    var currentPlayer: int
    var boardSize: nat

    /** The fields the rules read and write, as one value. */
    function State(): Board
      reads this
    {
      Board(player1Pieces, player2Pieces, player1Kings, player2Kings, currentPlayer)
    }

    /** The opening position on an 8 x 8 board; the king masks start empty. */
    constructor ()
      ensures State() == Initial()
      ensures boardSize == 8
    {
      player1Pieces := 0x00000FFF;
      player2Pieces := 0xFFF00000;
      currentPlayer := 1;
      boardSize := 8;
      player1Kings := 0;
      player2Kings := 0;
    }

    /** Remove the opponent's man at `position`. */
    method CapturePiece(player: int, position: nat) returns (events: seq<Event>)
      modifies this
      ensures State() == CaptureAt(old(State()), player, position)
      ensures events == [PieceCaptured]
      ensures boardSize == old(boardSize)
    {
      if player == 1 {
        player2Pieces := ClearBit(player2Pieces, position);
      } else if player == 2 {
        player1Pieces := ClearBit(player1Pieces, position);
      }
      events := [PieceCaptured];
    }

    /** Announce a win if a side has no men left; otherwise pass the turn. */
    method WinCondition() returns (notice: Event)
      modifies this
      ensures State() == CheckWin(old(State()))
      ensures notice == WinEvent(old(State()))
      ensures boardSize == old(boardSize)
    {
      if player1Pieces == 0 {
        notice := Wins(2);
      } else if player2Pieces == 0 {
        notice := Wins(1);
      } else {
        currentPlayer := if currentPlayer == 1 then 2 else 1;
        notice := TurnOf(currentPlayer);
      }
    }

    /**
     * Play the move if it is legal (move the man, capture on a jump, decide
     * the turn), report it as illegal otherwise, and then run the kinging
     * block in either case. `valueError` is set when the kinging block meets a
     * negative shift count, which stops the call.
     */
    method MovePiece(player: int, start: int, end: int) returns (events: seq<Event>, valueError: bool)
      modifies this
      ensures Outcome(State(), events, valueError) == MoveOutcome(old(State()), player, start, end)
      ensures boardSize == old(boardSize)
    {
      ghost var b := State();
      valueError := false;
      if IsLegalMove(State(), player, start, end) {
        if player == 1 {
          player1Pieces := ClearBit(player1Pieces, start);
          player1Pieces := SetBit(player1Pieces, end);
        } else if player == 2 {
          player2Pieces := ClearBit(player2Pieces, start);
          player2Pieces := SetBit(player2Pieces, end);
        }
        assert State() == Relocate(b, player, start, end);
        events := [];
        if IsJump(Distance(start, end)) {
          var mid := Midpoint(start, end);
          events := CapturePiece(player, mid);
        }
        assert State() == Play(b, player, start, end);
        events := events + [Moved(player, start, end)];
        var notice := WinCondition();
        events := events + [notice];
      } else {
        events := [IllegalMove];
      }
      assert Outcome(State(), events, valueError) == BeforeKinging(b, player, start, end);

      // kinging
      if player == 1 && end >= 28 && CheckBit(player1Kings, end) == 0 {
        player1Pieces := ClearBit(player1Pieces, end);
        player1Kings := SetBit(player1Kings, end);
        events := events + [Kinged(1)];
      } else if player == 2 && end <= 3 {
        if end < 0 {
          // checkBit(player2_kings, end) shifts by a negative count
          valueError := true;
        } else if CheckBit(player2Kings, end) == 0 {
          player2Pieces := ClearBit(player2Pieces, end);
          player2Kings := SetBit(player2Kings, end);
          events := events + [Kinged(2)];
        }
      }
    }

    /**
     * All legal moves of `player` from squares holding one of its men, in
     * ascending order of start square and then of end square, each once.
     */
    method ValidMoves(player: int) returns (moves: seq<(int, int)>)
      ensures forall m :: m in moves <==>
        OnBoard(m.0) && OnBoard(m.1) && Owns(State(), player, m.0) && IsLegalMove(State(), player, m.0, m.1)
      ensures forall i, j :: 0 <= i < j < |moves| ==> Before(moves[i], moves[j])
    {
      moves := [];
      for start := 0 to 32
        invariant forall m :: m in moves <==>
          0 <= m.0 < start && OnBoard(m.1) && Owns(State(), player, m.0) && IsLegalMove(State(), player, m.0, m.1)
        invariant forall i :: 0 <= i < |moves| ==> moves[i].0 < start
        invariant forall i, j :: 0 <= i < j < |moves| ==> Before(moves[i], moves[j])
      {
        if Owns(State(), player, start) {
          for end := 0 to 32
            invariant forall m :: m in moves <==>
              || (0 <= m.0 < start && OnBoard(m.1) && Owns(State(), player, m.0) && IsLegalMove(State(), player, m.0, m.1))
              || (m.0 == start && 0 <= m.1 < end && IsLegalMove(State(), player, m.0, m.1))
            invariant forall i :: 0 <= i < |moves| ==> Before(moves[i], (start, end))
            invariant forall i, j :: 0 <= i < j < |moves| ==> Before(moves[i], moves[j])
          {
            if IsLegalMove(State(), player, start, end) {
              moves := moves + [(start, end)];
            }
          }
        }
      }
    }
  }
}
