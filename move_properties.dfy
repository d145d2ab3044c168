/**
 * What one call of movePiece does to the board, as lemmas about
 * Rules.MoveOutcome: an illegal call changes nothing but what the kinging
 * block touches; a legal one relocates the man, captures the jumped man,
 * passes the turn exactly when the opponent still has men, and keeps the
 * piece counts of both sides except for the capture.
 */
module MoveProperties {
  import opened Bits
  import opened Rules

  /** The two boards agree on every mask at `square`. */
  predicate SameSquare(a: Board, b: Board, square: nat)
  {
    && CheckBit(a.player1Pieces, square) == CheckBit(b.player1Pieces, square)
    && CheckBit(a.player2Pieces, square) == CheckBit(b.player2Pieces, square)
    && CheckBit(a.player1Kings, square) == CheckBit(b.player1Kings, square)
    && CheckBit(a.player2Kings, square) == CheckBit(b.player2Kings, square)
  }

  /** No square is set in more than one of the four masks. */
  ghost predicate Disjoint(b: Board)
  {
    forall q: nat ::
      CheckBit(b.player1Pieces, q) + CheckBit(b.player2Pieces, q)
      + CheckBit(b.player1Kings, q) + CheckBit(b.player2Kings, q) <= 1
  }

  /** The number of pieces, men and kings, that `player` has. */
  ghost function PieceCount(b: Board, player: int): nat
  {
    PopCount(Men(b, player)) + PopCount(Kings(b, player))
  }

  /**
   * An illegal call reports IllegalMove, followed by a crowning exactly when
   * the kinging block fires; it keeps the turn and changes no square but
   * `end`; the opponent's masks are untouched, and if the kinging block does
   * not fire the board is unchanged.
   */
  lemma IllegalMoveOnlyCrowns(b: Board, player: int, start: int, end: int)
    requires !IsLegalMove(b, player, start, end)
    ensures var r := MoveOutcome(b, player, start, end);
      && r.events == [IllegalMove] + (if Crowns(b, player, end) then [Kinged(player)] else [])
      && r.board.currentPlayer == b.currentPlayer
      && (r.valueError <==> player == 2 && end < 0)
      && (!Crowns(b, player, end) ==> r.board == b)
      && (Crowns(b, player, end) ==>
            CheckBit(Kings(r.board, player), end) == 1 && CheckBit(Men(r.board, player), end) == 0)
      && (player != 1 ==> r.board.player1Pieces == b.player1Pieces && r.board.player1Kings == b.player1Kings)
      && (player != 2 ==> r.board.player2Pieces == b.player2Pieces && r.board.player2Kings == b.player2Kings)
      && forall q: nat :: q != end ==> SameSquare(r.board, b, q)
  {
    var r := MoveOutcome(b, player, start, end);
    forall q: nat | q != end
      ensures SameSquare(r.board, b, q)
    {
      if Crowns(b, player, end) {
        assert player == 1 || player == 2;
      }
    }
  }

  /**
   * A legal call by player 1 or 2 empties `start` of the mover's men, puts the
   * mover's man or new king on `end`, removes the jumped man on a jump and
   * nothing else of the opponent's, and raises no error. Every square other
   * than start, end and the jumped one keeps its contents.
   */
  lemma LegalMoveRelocates(b: Board, player: int, start: int, end: int)
    requires player == 1 || player == 2
    requires IsLegalMove(b, player, start, end)
    ensures var r := MoveOutcome(b, player, start, end);
      && !r.valueError
      && CheckBit(Men(r.board, player), start) == 0
      && CheckBit(Kings(r.board, player), start) == CheckBit(Kings(b, player), start)
      && (Crowns(b, player, end) ==>
            CheckBit(Kings(r.board, player), end) == 1 && CheckBit(Men(r.board, player), end) == 0
            && r.events[|r.events| - 1] == Kinged(player))
      && (!Crowns(b, player, end) ==>
            CheckBit(Men(r.board, player), end) == 1
            && CheckBit(Kings(r.board, player), end) == CheckBit(Kings(b, player), end))
      && Kings(r.board, Opponent(player)) == Kings(b, Opponent(player))
      && (IsJump(Distance(start, end)) ==>
            var mid := Midpoint(start, end);
            && CheckBit(Men(b, Opponent(player)), mid) == 1
            && CheckBit(Men(r.board, Opponent(player)), mid) == 0
            && PieceCaptured in r.events
            && CheckBit(Men(r.board, player), mid) == CheckBit(Men(b, player), mid)
            && CheckBit(Kings(r.board, player), mid) == CheckBit(Kings(b, player), mid)
            && forall q: nat :: q != mid ==>
                 CheckBit(Men(r.board, Opponent(player)), q) == CheckBit(Men(b, Opponent(player)), q))
      && (!IsJump(Distance(start, end)) ==> Men(r.board, Opponent(player)) == Men(b, Opponent(player)))
      && forall q: nat :: q != start && q != end && (IsJump(Distance(start, end)) ==> q != Midpoint(start, end)) ==>
           SameSquare(r.board, b, q)
  {
    var r := MoveOutcome(b, player, start, end);
    var moved := Relocate(b, player, start, end);
    var played := Play(b, player, start, end);
    var before := BeforeKinging(b, player, start, end);
    assert r == Crown(before, player, end);
    assert Kings(before.board, player) == Kings(b, player);
    if IsJump(Distance(start, end)) {
      var mid := Midpoint(start, end);
      assert played == CaptureAt(moved, player, mid);
      assert mid != start && mid != end;
      assert PieceCaptured == before.events[0];
    }
    forall q: nat | q != start && q != end && (IsJump(Distance(start, end)) ==> q != Midpoint(start, end))
      ensures SameSquare(r.board, b, q)
    {
      assert SameSquare(before.board, b, q);
    }
  }

  /** After a legal call the turn has passed exactly when the opponent still has men; otherwise the mover wins. */
  lemma LegalMoveTurn(b: Board, player: int, start: int, end: int)
    requires player == 1 || player == 2
    requires IsLegalMove(b, player, start, end)
    ensures var r := MoveOutcome(b, player, start, end);
      && (r.board.currentPlayer != b.currentPlayer <==> Men(r.board, Opponent(player)) != 0)
      && (Wins(player) in r.events <==> Men(r.board, Opponent(player)) == 0)
      && Wins(Opponent(player)) !in r.events
  {
    var r := MoveOutcome(b, player, start, end);
    var played := Play(b, player, start, end);
    var before := BeforeKinging(b, player, start, end);
    assert r == Crown(before, player, end);
    // the mover's men include `end`, so they are not all gone
    assert CheckBit(Men(played, player), end) == 1;
    NonZeroWhenBitSet(Men(played, player), end);
    assert Men(r.board, Opponent(player)) == Men(played, Opponent(player));
    assert r.board.currentPlayer == CheckWin(played).currentPlayer;
    assert r.events == before.events || r.events == before.events + [Kinged(player)];
  }

  /**
   * A legal call keeps the mover's piece count (a man crowned leaves the men
   * for the kings) and lowers the opponent's by one exactly when it is a jump.
   */
  lemma LegalMoveCounts(b: Board, player: int, start: int, end: int)
    requires player == 1 || player == 2
    requires IsLegalMove(b, player, start, end)
    ensures var r := MoveOutcome(b, player, start, end);
      && PieceCount(r.board, player) == PieceCount(b, player)
      && PieceCount(r.board, Opponent(player)) + (if IsJump(Distance(start, end)) then 1 else 0)
           == PieceCount(b, Opponent(player))
  {
    var r := MoveOutcome(b, player, start, end);
    var men := Men(b, player);
    var cleared := ClearBit(men, start);
    PopCountClearBit(men, start);
    PopCountSetBit(cleared, end);
    var moved := Relocate(b, player, start, end);
    assert Men(moved, player) == SetBit(cleared, end);
    assert PopCount(Men(moved, player)) == PopCount(men);
    var played := Play(b, player, start, end);
    if IsJump(Distance(start, end)) {
      PopCountClearBit(Men(moved, Opponent(player)), Midpoint(start, end));
    }
    var before := BeforeKinging(b, player, start, end);
    assert r == Crown(before, player, end);
    assert Men(before.board, player) == Men(moved, player);
    if Crowns(b, player, end) {
      PopCountClearBit(Men(before.board, player), end);
      PopCountSetBit(Kings(before.board, player), end);
    }
  }

  /**
   * A legal call keeps every square to one piece, provided `end` holds no
   * king: the legality check looks only at the men's masks.
   */
  lemma LegalMoveKeepsSquaresDisjoint(b: Board, player: int, start: int, end: int)
    requires player == 1 || player == 2
    requires IsLegalMove(b, player, start, end)
    requires Disjoint(b)
    requires CheckBit(b.player1Kings, end) == 0 && CheckBit(b.player2Kings, end) == 0
    ensures Disjoint(MoveOutcome(b, player, start, end).board)
  {
    var r := MoveOutcome(b, player, start, end).board;
    LegalMoveRelocates(b, player, start, end);
    forall q: nat
      ensures CheckBit(r.player1Pieces, q) + CheckBit(r.player2Pieces, q)
              + CheckBit(r.player1Kings, q) + CheckBit(r.player2Kings, q) <= 1
    {
      if q == start {
        assert CheckBit(Men(b, player), start) == 1;
      } else if q == end {
        assert !Occupied(b, end);
      } else if IsJump(Distance(start, end)) && q == Midpoint(start, end) {
        assert CheckBit(Men(b, Opponent(player)), q) == 1;
      } else {
        assert SameSquare(r, b, q);
      }
    }
  }

  /**
   * Legality reads only the men's masks: changing the kings or whose turn it
   * is never changes the answer, and a square whose man was crowned is no
   * longer a start square for its owner.
   */
  lemma LegalityIgnoresKingsAndTurn(b: Board, kings1: nat, kings2: nat, turn: int, player: int, start: int, end: int)
    ensures IsLegalMove(b.(player1Kings := kings1, player2Kings := kings2, currentPlayer := turn), player, start, end)
            == IsLegalMove(b, player, start, end)
    ensures (player == 1 || player == 2) && OnBoard(start) && CheckBit(Men(b, player), start) == 0
            ==> !IsLegalMove(b, player, start, end)
  {
  }

  /**
   * For a `player` other than 1 or 2 a legal call moves and captures nothing:
   * it only decides the turn and reports the move.
   */
  lemma OtherPlayerOnlyPassesTurn(b: Board, player: int, start: int, end: int)
    requires player != 1 && player != 2
    requires IsLegalMove(b, player, start, end)
    ensures var r := MoveOutcome(b, player, start, end);
      && r.board == CheckWin(b)
      && !r.valueError
      && Moved(player, start, end) in r.events
  {
    var r := MoveOutcome(b, player, start, end);
    assert Play(b, player, start, end) == b;
    assert !Crowns(b, player, end);
    assert r.events[|r.events| - 2] == Moved(player, start, end);
  }

  // ---------------------------------------------------------------------------
  // The opening position
  // ---------------------------------------------------------------------------

  /** From the opening, 8 -> 12 is a step for player 1 and 8 -> 20 is not a move at all. */
  lemma OpeningStep()
    ensures IsLegalMove(Initial(), 1, 8, 12)
    ensures !IsLegalMove(Initial(), 1, 8, 20)
  {
    var b := Initial();
    assert CheckBit(b.player1Pieces, 8) == 1;
    assert CheckBit(b.player1Pieces, 12) == 0 && CheckBit(b.player2Pieces, 12) == 0;
  }

  /**
   * The legal moves of the opening for player 1: the four men of the front
   * row each have two steps, 11 -> 16 among them although squares 11 and 16
   * do not touch on the board.
   */
  lemma OpeningMovesPlayer1(start: int, end: int)
    requires OnBoard(start) && OnBoard(end)
    ensures Owns(Initial(), 1, start) && IsLegalMove(Initial(), 1, start, end)
            <==> (start, end) in {(8, 12), (8, 13), (9, 13), (9, 14), (10, 14), (10, 15), (11, 15), (11, 16)}
  {
    var b := Initial();
    if start >= 12 {
      assert !Owns(b, 1, start);
    } else if end < 12 || 20 <= end {
      assert Occupied(b, end);
    } else {
      assert !Occupied(b, end);
      if IsStep(Distance(start, end)) {
        assert Occupied(b, FrontSquare(1, start)) <==> start < 8;
      } else if IsJump(Distance(start, end)) {
        assert !OpponentAt(b, 1, Midpoint(start, end));
      }
    }
  }

  /** The same for player 2, whose front row is 20 .. 23; 20 -> 15 is among its steps. */
  lemma OpeningMovesPlayer2(start: int, end: int)
    requires OnBoard(start) && OnBoard(end)
    ensures Owns(Initial(), 2, start) && IsLegalMove(Initial(), 2, start, end)
            <==> (start, end) in {(20, 15), (20, 16), (21, 16), (21, 17), (22, 17), (22, 18), (23, 18), (23, 19)}
  {
    var b := Initial();
    if start < 20 {
      assert !Owns(b, 2, start);
    } else if end < 12 || 20 <= end {
      assert Occupied(b, end);
    } else {
      assert !Occupied(b, end);
      if IsStep(Distance(start, end)) {
        assert Occupied(b, FrontSquare(2, start)) <==> 24 <= start;
      } else if IsJump(Distance(start, end)) {
        assert !OpponentAt(b, 2, Midpoint(start, end));
      }
    }
  }

  // ---------------------------------------------------------------------------
  // Consequences of ignoring the king masks
  // ---------------------------------------------------------------------------

  /**
   * A man may land on a square that holds a king: here player 1's man steps
   * 5 -> 9 onto player 2's king, and square 9 then holds two pieces.
   */
  lemma MoveOntoKingSharesSquare()
    ensures var b := Board(Pow2(5), 0, 0, Pow2(9), 1);
      && Disjoint(b)
      && IsLegalMove(b, 1, 5, 9)
      && !Disjoint(MoveOutcome(b, 1, 5, 9).board)
  {
    var b := Board(Pow2(5), 0, 0, Pow2(9), 1);
    forall q: nat
      ensures CheckBit(Pow2(5), q) == (if q == 5 then 1 else 0)
      ensures CheckBit(Pow2(9), q) == (if q == 9 then 1 else 0)
    {
      SingleBit(5, q);
      SingleBit(9, q);
    }
    CheckBitZero(9);
    assert IsLegalMove(b, 1, 5, 9);
    var r := MoveOutcome(b, 1, 5, 9).board;
    LegalMoveRelocates(b, 1, 5, 9);
    assert CheckBit(r.player1Pieces, 9) == 1 && CheckBit(r.player2Kings, 9) == 1;
  }

  lemma SingleBit(p: nat, q: nat)
    ensures CheckBit(Pow2(p), q) == if q == p then 1 else 0
  {
    assert Pow2(p) == 1 * Pow2(p);
    ShiftedBits(1, p, q);
    if q >= p {
      assert Pow2(1) - 1 == 1;
      LowBits(1, q - p);
    }
  }

  /**
   * The kinging block also runs after an illegal call: from the opening,
   * player 1's rejected move 0 -> 30 records a player-1 king on square 30,
   * where player 2 has a man, and player 1's piece count rises by one.
   */
  lemma IllegalMoveCrownsOccupiedSquare()
    ensures var r := MoveOutcome(Initial(), 1, 0, 30);
      && !IsLegalMove(Initial(), 1, 0, 30)
      && r.events == [IllegalMove, Kinged(1)]
      && CheckBit(r.board.player1Kings, 30) == 1
      && CheckBit(r.board.player2Pieces, 30) == 1
      && Disjoint(Initial()) && !Disjoint(r.board)
      && PieceCount(r.board, 1) == PieceCount(Initial(), 1) + 1
  {
    var b := Initial();
    CheckBitZero(30);
    assert !IsLegalMove(b, 1, 0, 30) by {
      assert Occupied(b, 30);
    }
    var r := MoveOutcome(b, 1, 0, 30);
    assert Crowns(b, 1, 30);
    assert r.board.player1Pieces == ClearBit(b.player1Pieces, 30);
    assert r.board.player1Kings == SetBit(0, 30);
    PopCountClearBit(b.player1Pieces, 30);
    PopCountSetBit(0, 30);
    forall q: nat
      ensures CheckBit(b.player1Pieces, q) + CheckBit(b.player2Pieces, q)
              + CheckBit(b.player1Kings, q) + CheckBit(b.player2Kings, q) <= 1
    {
      CheckBitZero(q);
    }
  }

  /**
   * The far-row test for player 1 has no upper bound: from the opening, the
   * rejected move 0 -> 40 records a player-1 king at index 40, off the board,
   * and leaves the men where they were since no man stood there.
   */
  lemma IllegalMoveCrownsOffBoard()
    ensures var r := MoveOutcome(Initial(), 1, 0, 40);
      && !IsLegalMove(Initial(), 1, 0, 40)
      && r.events == [IllegalMove, Kinged(1)]
      && CheckBit(r.board.player1Kings, 40) == 1
      && r.board.player1Pieces == Initial().player1Pieces
      && r.board.player2Pieces == Initial().player2Pieces
      && r.board.currentPlayer == 1
  {
    var b := Initial();
    CheckBitZero(40);
    var r := MoveOutcome(b, 1, 0, 40);
    assert Crowns(b, 1, 40);
    assert CheckBit(b.player1Pieces, 40) == 0;
    SetClearIdle(b.player1Pieces, 40);
  }

  /**
   * winCondition counts the men before the kinging block runs and never looks
   * at the kings: player 1 steps its last man 24 -> 28, the turn passes to
   * player 2, and then the man is crowned, leaving player 1 with no men.
   */
  lemma LastManCrownedStillPassesTurn()
    ensures var b := Board(Pow2(24), 1, 0, 0, 1);
      var r := MoveOutcome(b, 1, 24, 28);
      && IsLegalMove(b, 1, 24, 28)
      && r.board.player1Pieces == 0
      && r.board.player1Kings == Pow2(28)
      && r.board.currentPlayer == 2
      && r.events == [Moved(1, 24, 28), TurnOf(2), Kinged(1)]
  {
    var b := Board(Pow2(24), 1, 0, 0, 1);
    LastManStep();
    SingleBit(28, 28);
    CheckBitZero(28);
    assert ClearBit(Pow2(28), 28) == 0;
  }

  /** The step 24 -> 28 of LastManCrownedStillPassesTurn is legal and moves the man. */
  lemma LastManStep()
    ensures var b := Board(Pow2(24), 1, 0, 0, 1);
      && IsLegalMove(b, 1, 24, 28)
      && Play(b, 1, 24, 28) == Board(Pow2(28), 1, 0, 0, 1)
  {
    var b := Board(Pow2(24), 1, 0, 0, 1);
    assert Pow2(0) == 1;
    SingleBit(24, 24);
    SingleBit(24, 28);
    SingleBit(0, 28);
    CheckBitZero(28);
    assert IsLegalMove(b, 1, 24, 28);
    assert ClearBit(Pow2(24), 24) == 0;
  }
}
