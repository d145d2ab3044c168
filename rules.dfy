/**
 * The rules of the checkers bitboard as functions of the board's state.
 *
 * Squares are the indices 0 .. 31 of the 32 playable cells. Player 1 starts
 * on squares 0 .. 11 and moves towards higher indices; player 2 starts on
 * 20 .. 31 and moves towards lower ones. Each player has a mask of men and a
 * mask of kings. The class `BitBoard` (module Game) holds these five fields
 * and its methods are specified by the functions here.
 */
module Rules {
  import opened Bits

  /** The fields of a BitBoard that the rules read and write. */
  datatype Board = Board(
    player1Pieces: nat,
    player2Pieces: nat,
    player1Kings: nat,
    player2Kings: nat,
    currentPlayer: int)

  /** The notices the engine gives while a move is played, in the order it gives them. */
  datatype Event =
    | Moved(mover: int, from: int, to: int)
    | IllegalMove
    | PieceCaptured
    | Wins(winner: int)
    | TurnOf(next: int)
    | Kinged(crowned: int)

  /**
   * The result of one call of movePiece: the board it leaves, the notices it
   * gave, and whether it stopped with a ValueError (a negative shift count).
   */
  datatype Outcome = Outcome(board: Board, events: seq<Event>, valueError: bool)

  /** The opening position: player 1's men on 0 .. 11, player 2's on 20 .. 31, no kings, player 1 to move. */
  function Initial(): (b: Board)
    ensures forall q: nat :: CheckBit(b.player1Pieces, q) == 1 <==> q < 12
    ensures forall q: nat :: CheckBit(b.player2Pieces, q) == 1 <==> 20 <= q < 32
    ensures b.player1Kings == 0 && b.player2Kings == 0 && b.currentPlayer == 1
  {
    OpeningSquares();
    Board(0x00000FFF, 0xFFF00000, 0, 0, 1)
  }

  lemma OpeningSquares()
    ensures forall q: nat :: CheckBit(0x00000FFF, q) == 1 <==> q < 12
    ensures forall q: nat :: CheckBit(0xFFF00000, q) == 1 <==> 20 <= q < 32
  {
    assert Pow2(12) == 0x1000;
    assert Pow2(20) == 0x100000;
    assert 0xFFF00000 == (Pow2(12) - 1) * Pow2(20);
    forall q: nat
      ensures CheckBit(0x00000FFF, q) == 1 <==> q < 12
      ensures CheckBit(0xFFF00000, q) == 1 <==> 20 <= q < 32
    {
      LowBits(12, q);
      ShiftedBits(Pow2(12) - 1, 20, q);
      if q >= 20 {
        LowBits(12, q - 20);
      }
    }
  }

  // ---------------------------------------------------------------------------
  // Reading the board
  // ---------------------------------------------------------------------------

  /** |start - end|: moves are classified by the difference of the indices alone. */
  function Distance(start: int, end: int): nat
  {
    if start <= end then end - start else start - end
  }

  predicate IsStep(d: nat) { d == 4 || d == 5 }

  predicate IsJump(d: nat) { d == 7 || d == 9 }

  predicate OnBoard(square: int) { 0 <= square <= 31 }

  /** A man of either player stands on `square`; the king masks are not consulted. */
  predicate Occupied(b: Board, square: nat)
  {
    CheckBit(b.player1Pieces, square) == 1 || CheckBit(b.player2Pieces, square) == 1
  }

  /** `player` has a man on `square`. */
  predicate Owns(b: Board, player: int, square: nat)
  {
    (player == 1 && CheckBit(b.player1Pieces, square) == 1)
    || (player == 2 && CheckBit(b.player2Pieces, square) == 1)
  }

  /** The other player has a man on `square`. */
  predicate OpponentAt(b: Board, player: int, square: nat)
  {
    (player == 1 && CheckBit(b.player2Pieces, square) == 1)
    || (player == 2 && CheckBit(b.player1Pieces, square) == 1)
  }

  /** Player 1 moves to higher indices, player 2 to lower ones; other values of `player` are not restricted. */
  predicate Forward(player: int, start: int, end: int)
  {
    (player == 1 ==> start < end) && (player == 2 ==> end < start)
  }

  /** The square four places ahead of `start`, upwards for player 1 and downwards otherwise. */
  function FrontSquare(player: int, start: int): int
  {
    if player == 1 then start + 4 else start - 4
  }

  /** The square ahead of `start` is on the board and holds a man. */
  predicate FrontBlocked(b: Board, player: int, start: int)
  {
    var front := FrontSquare(player, start);
    OnBoard(front) && Occupied(b, front)
  }

  /** The square jumped over by a move from `start` to `end` (floor division). */
  function Midpoint(start: nat, end: nat): nat
  {
    (start + end) / 2
  }

  /**
   * isLegalMove: the checks in the order the engine makes them, each one
   * rejecting the move; a step (distance 4 or 5) or a jump (7 or 9) over an
   * opponent's man is accepted.
   */
  function IsLegalMove(b: Board, player: int, start: int, end: int): (legal: bool)
    // for the two players the checks amount to this conjunction
    ensures player == 1 || player == 2 ==>
      (legal <==>
        && OnBoard(start) && OnBoard(end)
        && Forward(player, start, end)
        && Owns(b, player, start)
        && !Occupied(b, end)
        && (|| (IsStep(Distance(start, end)) && !FrontBlocked(b, player, start))
            || (IsJump(Distance(start, end)) && OpponentAt(b, player, Midpoint(start, end)))))
    // any other value of `player` skips the direction and ownership checks and can only step
    ensures player != 1 && player != 2 ==>
      (legal <==>
        && OnBoard(start) && OnBoard(end)
        && !Occupied(b, end)
        && IsStep(Distance(start, end)) && !FrontBlocked(b, player, start))
  {
    if start < 0 || start > 31 || end < 0 || end > 31 then false
    else if player == 1 && end <= start then false
    else if player == 2 && end >= start then false
    else if player == 1 && CheckBit(b.player1Pieces, start) == 0 then false
    else if player == 2 && CheckBit(b.player2Pieces, start) == 0 then false
    else if CheckBit(b.player1Pieces, end) == 1 || CheckBit(b.player2Pieces, end) == 1 then false
    else if FrontBlocked(b, player, start) && IsStep(Distance(start, end)) then false
    else if IsStep(Distance(start, end)) then true
    else if IsJump(Distance(start, end)) then
      var mid := Midpoint(start, end);
      if player == 1 && CheckBit(b.player2Pieces, mid) == 1 then true
      else if player == 2 && CheckBit(b.player1Pieces, mid) == 1 then true
      else false
    else false
  }

  /** The same (start, end) is never legal for both players. */
  lemma NoSharedLegality(b: Board, start: int, end: int)
    ensures !(IsLegalMove(b, 1, start, end) && IsLegalMove(b, 2, start, end))
  {
  }

  // ---------------------------------------------------------------------------
  // The steps of movePiece
  // ---------------------------------------------------------------------------

  /** The men of `player` (player 1's for 1, player 2's otherwise). */
  function Men(b: Board, player: int): nat
  {
    if player == 1 then b.player1Pieces else b.player2Pieces
  }

  /** The kings of `player` (player 1's for 1, player 2's otherwise). */
  function Kings(b: Board, player: int): nat
  {
    if player == 1 then b.player1Kings else b.player2Kings
  }

  function Opponent(player: int): int
  {
    if player == 1 then 2 else 1
  }

  /** Move the man: clear `start` and set `end` in the mover's mask; any other `player` changes nothing. */
  function Relocate(b: Board, player: int, start: nat, end: nat): (r: Board)
    ensures r.player1Kings == b.player1Kings && r.player2Kings == b.player2Kings
    ensures r.currentPlayer == b.currentPlayer
    ensures player != 1 && player != 2 ==> r == b
    ensures player == 1 || player == 2 ==>
      && Men(r, Opponent(player)) == Men(b, Opponent(player))
      && CheckBit(Men(r, player), end) == 1
      && (start != end ==> CheckBit(Men(r, player), start) == 0)
      && forall q: nat :: q != start && q != end ==> CheckBit(Men(r, player), q) == CheckBit(Men(b, player), q)
  {
    if player == 1 then b.(player1Pieces := SetBit(ClearBit(b.player1Pieces, start), end))
    else if player == 2 then b.(player2Pieces := SetBit(ClearBit(b.player2Pieces, start), end))
    else b
  }

  /** capturePiece: remove the opponent's man at `position`; any other `player` changes nothing. */
  function CaptureAt(b: Board, player: int, position: nat): (r: Board)
    ensures r.player1Kings == b.player1Kings && r.player2Kings == b.player2Kings
    ensures r.currentPlayer == b.currentPlayer
    ensures player != 1 && player != 2 ==> r == b
    ensures player == 1 || player == 2 ==>
      && Men(r, player) == Men(b, player)
      && CheckBit(Men(r, Opponent(player)), position) == 0
      && forall q: nat :: q != position ==> CheckBit(Men(r, Opponent(player)), q) == CheckBit(Men(b, Opponent(player)), q)
  {
    if player == 1 then b.(player2Pieces := ClearBit(b.player2Pieces, position))
    else if player == 2 then b.(player1Pieces := ClearBit(b.player1Pieces, position))
    else b
  }

  /** The board after a legal move and its capture, before the turn is decided. */
  function Play(b: Board, player: int, start: int, end: int): Board
    requires IsLegalMove(b, player, start, end)
  {
    var moved := Relocate(b, player, start, end);
    if IsJump(Distance(start, end)) then CaptureAt(moved, player, Midpoint(start, end)) else moved
  }

  /** The turn passes unless one side has no men left. */
  predicate GameGoesOn(b: Board)
  {
    b.player1Pieces != 0 && b.player2Pieces != 0
  }

  /** winCondition: a side without men means a win and the turn stays; otherwise the turn passes. */
  function CheckWin(b: Board): (r: Board)
    ensures r.(currentPlayer := b.currentPlayer) == b
    ensures r.currentPlayer != b.currentPlayer <==> GameGoesOn(b)
    ensures GameGoesOn(b) ==> r.currentPlayer == 1 || r.currentPlayer == 2
    ensures GameGoesOn(b) && (b.currentPlayer == 1 || b.currentPlayer == 2) ==> r.currentPlayer == 3 - b.currentPlayer
  {
    if b.player1Pieces == 0 then b
    else if b.player2Pieces == 0 then b
    else b.(currentPlayer := if b.currentPlayer == 1 then 2 else 1)
  }

  /** The notice winCondition gives. */
  function WinEvent(b: Board): Event
  {
    if b.player1Pieces == 0 then Wins(2)
    else if b.player2Pieces == 0 then Wins(1)
    else TurnOf(CheckWin(b).currentPlayer)
  }

  /** The kinging block reaches `end`'s king bit: player 1 at 28 or above, player 2 at 3 or below. */
  predicate Crowns(b: Board, player: int, end: int)
  {
    || (player == 1 && end >= 28 && CheckBit(b.player1Kings, end) == 0)
    || (player == 2 && 0 <= end <= 3 && CheckBit(b.player2Kings, end) == 0)
  }

  /**
   * The kinging block, run after every call whether the move was legal or not:
   * the man's bit `end` is cleared and the king's bit `end` set. For player 2
   * a negative `end` reaches a negative shift count, which raises ValueError.
   */
  function Crown(o: Outcome, player: int, end: int): (r: Outcome)
    ensures r.valueError <==> o.valueError || (player == 2 && end < 0)
    ensures !Crowns(o.board, player, end) ==> r.board == o.board && r.events == o.events
    ensures Crowns(o.board, player, end) ==>
      && r.events == o.events + [Kinged(player)]
      && r.board.currentPlayer == o.board.currentPlayer
      && Men(r.board, Opponent(player)) == Men(o.board, Opponent(player))
      && Kings(r.board, Opponent(player)) == Kings(o.board, Opponent(player))
      && CheckBit(Men(r.board, player), end) == 0
      && CheckBit(Kings(r.board, player), end) == 1
      && forall q: nat :: q != end ==>
           && CheckBit(Men(r.board, player), q) == CheckBit(Men(o.board, player), q)
           && CheckBit(Kings(r.board, player), q) == CheckBit(Kings(o.board, player), q)
  {
    var k := o.board;
    if player == 1 && end >= 28 && CheckBit(k.player1Kings, end) == 0 then
      Outcome(k.(player1Pieces := ClearBit(k.player1Pieces, end), player1Kings := SetBit(k.player1Kings, end)),
              o.events + [Kinged(1)], o.valueError)
    else if player == 2 && end <= 3 then
      if end < 0 then o.(valueError := true)
      else if CheckBit(k.player2Kings, end) == 0 then
        Outcome(k.(player2Pieces := ClearBit(k.player2Pieces, end), player2Kings := SetBit(k.player2Kings, end)),
                o.events + [Kinged(2)], o.valueError)
      else o
    else o
  }

  /** movePiece up to the kinging block: the legal branch (lines 103-116) or the illegal one (117-118). */
  function BeforeKinging(b: Board, player: int, start: int, end: int): Outcome
  {
    if IsLegalMove(b, player, start, end) then
      var played := Play(b, player, start, end);
      Outcome(CheckWin(played),
              (if IsJump(Distance(start, end)) then [PieceCaptured] else [])
                + [Moved(player, start, end), WinEvent(played)],
              false)
    else
      Outcome(b, [IllegalMove], false)
  }

  /** movePiece: play the move if it is legal, report it otherwise, then run the kinging block. */
  function MoveOutcome(b: Board, player: int, start: int, end: int): Outcome
  {
    Crown(BeforeKinging(b, player, start, end), player, end)
  }
}
