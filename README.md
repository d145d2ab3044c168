# Checkers bitboard engine in Dafny

This project models the rules engine of a two-player checkers game played on
the 32 dark squares of an 8 x 8 board. Squares are numbered 0 .. 31. A board
keeps four bitmasks: the men of player 1, the men of player 2, the kings of
player 1 and the kings of player 2. It also keeps `currentPlayer`, the player
whose turn it is. In the opening position player 1's men stand on 0 .. 11 and
player 2's on 20 .. 31. Player 1 moves towards higher indices and player 2
towards lower ones.

The project has four modules:

- `Bits` (`bits.dfy`) models the `Utility` bit helpers. Masks are `nat`.
  The engine's masks start non-negative, and setting or clearing a bit keeps
  them so; no width is imposed, as Python integers have none. `CheckBit` is the source's
  `(value >> position) & 1`, written as `(value / 2^position) % 2`.
  `SetBit`, `ClearBit` and `FlipBit` add or subtract `2^position` according to
  that bit, which is what `|`, `& ~` and `^` do with a one-bit mask. Their
  contracts give the result bit by bit. The module also proves that two
  values with the same bits are equal, and how each helper changes the
  number of set bits.
- `Rules` (`rules.dfy`) holds the board state as a `Board` value and gives
  each step of the engine as a function: `IsLegalMove`, `Relocate` (moving
  the man), `CaptureAt` (`capturePiece`), `CheckWin` (`winCondition`),
  `Crown` (the kinging block) and `MoveOutcome` (a whole `movePiece` call).
- `MoveProperties` (`move_properties.dfy`) proves what one `movePiece` call
  does. It covers legal and illegal calls, captures, the turn, piece counts
  and the one-piece-per-square invariant. It also proves the legal moves of
  the opening position.
- `Game` (`game.dfy`) holds the class `BitBoard`, whose methods update its
  fields in place as the source does. Each method's postcondition equates
  the new state with the matching `Rules` function of the old state.
  `ValidMoves` is the source's nested scan, proved to return exactly the
  legal moves in scan order.

The engine prints notices: a move, an illegal move, a capture, a win, the
next turn and a crowning. The model returns them instead, as `Event` values
in the order they are printed.

The model follows the code, including these behaviours:

- Legality looks only at the men's masks. A king cannot be moved by its
  owner, its square counts as empty, and a man may land on it
  (`MoveOntoKingSharesSquare`).
- Legality never reads `currentPlayer`, and `winCondition` toggles the turn
  whoever moved.
- Adjacency is the difference of indices alone. From the opening, 11 -> 16
  is a step for player 1 and 20 -> 15 is a step for player 2.
- The kinging block runs after illegal calls too. For player 1 it fires on
  any `end >= 28`, including indices past 31 such as 40; for player 2 on
  0 .. 3. The man's bit at `end` is cleared and the king's bit set, whether or
  not a man stood there (`IllegalMoveCrownsOccupiedSquare`,
  `IllegalMoveCrownsOffBoard`).
- For player 2, a negative `end` makes the kinging block shift by a negative
  count. Once the king masks exist (see "Left out"), that raises `ValueError`
  in the source; here it sets `valueError`.
- A `player` other than 1 or 2 skips the direction and ownership checks. It
  can "step" from any square whose front square is empty. Such a move changes
  no mask. The turn passes only while both sides still have men, as after any
  legal move (`OtherPlayerOnlyPassesTurn`).

A reader of the game might expect some properties that the code does not
have. The model follows the code and proves what it actually does:

- One might expect 4 opening moves for player 1, one per man of the front
  row. The code allows 8: two steps from each of 8, 9, 10 and 11
  (`OpeningMovesPlayer1`).
- One might expect that a move never increases a side's piece count. The
  kinging block after an illegal call can add a king
  (`IllegalMoveCrownsOccupiedSquare`).
- One might expect that no square is ever set in two masks. A legal move
  keeps that only when the landing square holds no king
  (`LegalMoveKeepsSquaresDisjoint`).
- One might expect the turn to pass on every applied move. The code keeps the
  turn when the opponent has no men left after the move (`LegalMoveTurn`).
  The mover's men are counted before the kinging block, so a side whose last
  man is crowned is left with no men, and the turn still passes
  (`LastManCrownedStillPassesTurn`). `winCondition` never looks at the king
  masks.

## Model

| member | source | states |
|---|---|---|
| `Bits.CheckBit` | CheckersGameCode.py:19-21 | the bit read is the integer 0 or 1 |
| `Bits.SetBit` | CheckersGameCode.py:11-13 | bit `position` of the result is 1, every other bit is that of `value`, and the value does not decrease |
| `Bits.ClearBit` | CheckersGameCode.py:15-17 | bit `position` of the result is 0, every other bit is that of `value`, and the value does not increase |
| `Bits.FlipBit` | CheckersGameCode.py:7-9 | bit `position` is toggled and every other bit is kept |
| `Bits.FlipBitTwice` | CheckersGameCode.py:7-9 | flipping the same bit twice gives back the original value |
| `Bits.SetClearIdle` | CheckersGameCode.py:11-17 | setting a set bit, or clearing a clear bit, leaves the value unchanged, and only then |
| `Bits.SetClearAbsorb` | CheckersGameCode.py:11-17 | clearing after setting equals clearing, and setting after clearing equals setting |
| `Bits.BitsDetermineValue` | CheckersGameCode.py:19-21 | two masks with the same bits at every position are equal, so a mask is the set of squares it marks |
| `Bits.PopCountSetBit` | CheckersGameCode.py:11-13 | setting a bit raises the number of set bits by one exactly when the bit was clear |
| `Bits.PopCountClearBit` | CheckersGameCode.py:15-17 | clearing a bit lowers the number of set bits by one exactly when the bit was set |
| `Bits.PopCountFlipBit` | CheckersGameCode.py:7-9 | flipping a bit lowers the number of set bits by one when the bit was set and raises it by one when it was clear |
| `Rules.Initial` | CheckersGameCode.py:36-40 | the opening board has player 1's men on exactly squares 0..11 and player 2's on exactly 20..31, no kings, and player 1 to move |
| `Rules.OpeningSquares` | CheckersGameCode.py:37-38 | 0x00000FFF marks exactly squares 0..11 and 0xFFF00000 marks exactly squares 20..31 |
| `Rules.IsLegalMove` | CheckersGameCode.py:59-99 | for players 1 and 2, a move is legal iff both squares are in 0..31, it goes forward, the start holds the player's man, the end holds no man, and either it is a step of 4 or 5 whose front square is empty or off the board, or a jump of 7 or 9 over an opponent's man; for other players, iff it is such an unblocked step onto an empty square |
| `Rules.Relocate` | CheckersGameCode.py:104-109 | the mover's man leaves `start` and appears on `end`, its other squares and all other masks and the turn are kept; another `player` changes nothing |
| `Rules.CaptureAt` | CheckersGameCode.py:130-135 | exactly the opponent's bit `position` is cleared, everything else is kept; another `player` changes nothing |
| `Rules.CheckWin` | CheckersGameCode.py:138-146 | only the turn may change; it changes iff both sides still have men, and then goes to the other player |
| `Rules.Crown` | CheckersGameCode.py:120-128 | when `end` is not yet a king and is `>= 28` for player 1 (indices past 31 included) or in 0..3 for player 2, the man's bit at `end` is cleared and the king's bit set, whether or not a man stood there, nothing else changes, and a crowning is reported; otherwise the board is kept; for player 2 a negative end raises ValueError (once the king masks exist, see Left out) |
| `Rules.NoSharedLegality` | CheckersGameCode.py:64-68 | no (start, end) is legal for both player 1 and player 2 |
| `MoveProperties.IllegalMoveOnlyCrowns` | CheckersGameCode.py:102-128 | an illegal call reports IllegalMove, followed by a crowning exactly when the kinging block fires, keeps the turn and the opponent's masks, changes no square but `end`, changes nothing at all unless the kinging block fires, and raises only for player 2 with a negative end |
| `MoveProperties.LegalMoveRelocates` | CheckersGameCode.py:103-128 | a legal call empties `start`, puts the mover's man or new king on `end`, removes exactly the jumped man on a jump and leaves the opponent's men alone otherwise, and keeps every other square |
| `MoveProperties.LegalMoveTurn` | CheckersGameCode.py:103-146 | after a legal call the turn has passed iff the opponent still has men; the mover is announced winner iff the opponent has none, and the opponent never is |
| `MoveProperties.LegalMoveCounts` | CheckersGameCode.py:102-136 | a legal call keeps the mover's number of pieces and lowers the opponent's by one exactly when it is a jump |
| `MoveProperties.LegalMoveKeepsSquaresDisjoint` | CheckersGameCode.py:76-128 | a legal call on a board with one piece per square keeps one piece per square when the landing square holds no king |
| `MoveProperties.LegalityIgnoresKingsAndTurn` | CheckersGameCode.py:70-78 | legality does not depend on the king masks or on the turn, and a square without the player's man is never a legal start |
| `MoveProperties.OtherPlayerOnlyPassesTurn` | CheckersGameCode.py:102-146 | for a player other than 1 or 2, a legal call leaves every mask as it was and reports the move; the turn passes only while both sides still have men, as `winCondition` decides |
| `MoveProperties.OpeningStep` | CheckersGameCode.py:59-99 | in the opening, 8 -> 12 is legal for player 1 and 8 -> 20 is not |
| `MoveProperties.OpeningMovesPlayer1` | CheckersGameCode.py:148-157 | in the opening, player 1's moves from its own squares are exactly 8->12, 8->13, 9->13, 9->14, 10->14, 10->15, 11->15, 11->16 |
| `MoveProperties.OpeningMovesPlayer2` | CheckersGameCode.py:148-157 | in the opening, player 2's moves from its own squares are exactly 20->15, 20->16, 21->16, 21->17, 22->17, 22->18, 23->18, 23->19 |
| `MoveProperties.MoveOntoKingSharesSquare` | CheckersGameCode.py:76-78 | a legal step can land on a square holding a king, after which that square is set in two masks |
| `MoveProperties.IllegalMoveCrownsOccupiedSquare` | CheckersGameCode.py:117-128 | from the opening, the rejected move 0 -> 30 of player 1 still records a player-1 king on square 30, where player 2 has a man, and raises player 1's piece count by one |
| `MoveProperties.IllegalMoveCrownsOffBoard` | CheckersGameCode.py:117-122 | from the opening, the rejected move 0 -> 40 of player 1 still records a player-1 king at index 40, off the board, and leaves both men masks and the turn unchanged |
| `MoveProperties.LastManCrownedStillPassesTurn` | CheckersGameCode.py:116-128 | a legal step 24 -> 28 of player 1's last man passes the turn to player 2, because `winCondition` counts the men before the man is crowned, and leaves player 1 with no men and a king on 28 |
| `Game.BitBoard.constructor` | CheckersGameCode.py:36-40 | a new board is in the opening position on an 8 x 8 board |
| `Game.BitBoard.CapturePiece` | CheckersGameCode.py:130-136 | the new state is `CaptureAt` of the old, and a capture is reported |
| `Game.BitBoard.WinCondition` | CheckersGameCode.py:138-146 | the new state is `CheckWin` of the old, and the win or the next turn is reported |
| `Game.BitBoard.MovePiece` | CheckersGameCode.py:102-128 | the new state, the reported events and the error flag are those of `MoveOutcome` on the old state |
| `Game.BitBoard.ValidMoves` | CheckersGameCode.py:148-157 | the list holds exactly the pairs of on-board squares whose start holds the player's man and which are legal, in strictly ascending order of start then end, so without duplicates; the board is not changed |

## Left out

- `Bits.CheckBit`, `Bits.SetBit`, `Bits.ClearBit`, `Bits.FlipBit` take `nat` values: the helpers also accept negative integers in the source (two's-complement bits), but no mask of the engine is ever negative, so those values are not modelled.
- `print_board` (CheckersGameCode.py:42-57) is console rendering only and is not modelled.
- `play_game` and the module-level call (CheckersGameCode.py:160-192) are not modelled: they read stdin, retry on `ValueError` and choose player 2's move with `random.choice`.
- `Utility.toBinary`, `toHexadecimal` and `toDecimal` (CheckersGameCode.py:23-33) are thin wrappers over Python built-ins and are not modelled.
- Printed messages become `Event` values returned by the methods; no output is produced.
- `Game.BitBoard.constructor`: the king masks start at 0. The source never sets them, so its first kinging check (lines 121 and 125) raises `AttributeError`. That error is not modelled.
- `Bits.CheckBit`, `Bits.SetBit`, `Bits.ClearBit`, `Bits.FlipBit` take `nat` positions. A negative position raises `ValueError` in the source. The engine can reach one only in the kinging block, which the model handles.
- `Game.BitBoard.CapturePiece` takes a `nat` position for the same reason. Its only caller passes the midpoint of a legal jump, which lies in 0..31.
- There are no `isGameOver` or `winner` queries in the code, so none are modelled. The nearest behaviour, the win announcement of `winCondition`, is modelled.
