# Chess move legality (bevy-chess)

This project models the move-legality engine of a 3D chess game. `Piece::is_move_valid`
is given a piece, a target square and a snapshot of every live piece, and it answers
whether the piece may move there. It uses four helpers. `get_piece_on_square` returns
the first piece of the snapshot found on a square. `color_of_piece_on_square` returns
that piece's colour. `is_between_range` is an open-interval test that works in either
order. `is_path_empty` scans the shared column, the shared row and then the diagonal
between two squares.

Modules, one concept each:

- `Pieces` (`pieces.dfy`): the colour, piece-type and piece records. It also holds the
  two square lookups. Both return the first piece of the snapshot on the square, found
  as the least index by `FirstIndexOn`.
- `Path` (`path.dfy`): `IsBetweenRange` and `IsPathEmpty`. `IsPathEmpty` has the same
  three scans as the source, with its diagonal walk written as a recursive function.
  The module also holds a reference definition in plain geometry: `StrictlyBetween`
  and `PathClear` say "no piece strictly inside the segment". `PathEmptyIffClear`
  proves that the two definitions agree.
- `Moves` (`moves.dfy`): `IsMoveValid` and `PawnMoveValid`. They follow the branches of
  the source in its order: friendly fire, then the null move, then a match on the
  piece type.
- `Rules` (`rules.dfy`): the rules restated as displacements, without the source's
  absolute differences or scans. They are sets of allowed displacements for the king
  and the knight, line shapes plus `PathClear` for the sliders, and displacement cases
  for the pawn. The pawn cases share only `Moves.Forward`, the direction of play, with
  the model; the starting files 1 and 6 are written out. `MoveValidIffLegal`
  proves that `IsMoveValid` decides exactly these rules. The per-rule lemmas follow
  from it.
- `Scenarios` (`scenarios.dfy`): the 32-piece opening layout that `create_pieces`
  spawns, and worked examples.
- `Findings` (`findings.dfy`): pawns capture straight ahead (see below).

Coordinates are unbounded integers. `IsMoveValid` requires the moving piece and the
target to be on the board (0..7 on both axes), as the game guarantees. Under that
requirement the source's `u8`/`i8` arithmetic cannot overflow. The other pieces of the
snapshot may hold any coordinates.

## Model

| member | source | states |
|---|---|---|
| Pieces.FirstIndexOn | src/pieces.rs:497-505 | the scan stops at the least index whose piece stands on the square, or reports that no piece stands there |
| Pieces.PieceOnSquare | src/pieces.rs:497-505 | none is returned exactly when no piece stands on the square; otherwise the piece returned stands there and no earlier piece of the snapshot does |
| Pieces.ColorOnSquare | src/pieces.rs:507-513 | none exactly when the square is empty; otherwise the colour of the first piece of the snapshot standing on it |
| Pieces.ColorOnSquareOfOccupant | src/pieces.rs:507-513 | when no two pieces share a square, the colour reported for a piece's square is that piece's colour |
| Pieces.FirstIndexIgnoresOtherSquares | src/pieces.rs:497-505 | inserting a piece that is off the square anywhere in the snapshot still finds the same first piece on the square, or still finds none |
| Pieces.ColorOnSquareIgnoresOtherSquares | src/pieces.rs:497-513 | inserting a piece that is off the square never changes the colour reported for the square |
| Path.IsBetweenRange | src/pieces.rs:515-517 | true exactly when the value lies strictly between the two bounds, in whichever order they are given |
| Path.DiagonalSquare | src/pieces.rs:543-555 | the square reached at step i of the diagonal walk is i away from the start on both axes and, for a positive step, lies on the side of the start towards the destination on both axes |
| Path.DiagonalClear | src/pieces.rs:541-560 | the diagonal walk over steps from..steps-1 succeeds exactly when none of the squares it reaches holds a piece |
| Path.DiagonalSquareBetween | src/pieces.rs:541-555 | every square the diagonal walk visits lies strictly inside the diagonal segment |
| Path.DiagonalBetweenIsVisited | src/pieces.rs:541-555 | every square strictly inside a diagonal segment is visited by the walk, at step distance-from-start |
| Path.PathEmptyIffClear | src/pieces.rs:519-564 | is_path_empty holds exactly when no piece of either colour stands strictly between the squares on their shared column, row or diagonal |
| Path.IsPathEmpty | src/pieces.rs:519-564 | neighbouring squares always give an empty path, because the range test is strict and the walk `1..1` visits nothing; squares sharing no column, row or diagonal are reported empty too; its full meaning is `Path.PathEmptyIffClear` |
| Moves.Forward | src/pieces.rs:56-94 | a pawn advances by +1 file when White and by -1 file when Black; `Rules.PawnMovesForward` ties this to the accepted moves |
| Moves.HomeFile | src/pieces.rs:71-102 | the two-step home file and the file two steps ahead of it both lie on the board; `Scenarios.PawnsStartOnHomeFile` shows it is the file every pawn of that colour starts on |
| Moves.PawnMoveValid | src/pieces.rs:56-104 | an accepted pawn move changes y by at most one and, onto a board square, goes one or two files forward for its colour; its full meaning is `Rules.PawnMoveValidIffLegal` |
| Moves.IsMoveValid | src/pieces.rs:28-107 | an accepted move never targets the piece's own square or a square reported as holding its colour, and only a rook, bishop or queen may travel farther than a knight's jump; it decides exactly `Rules.Legal` (`Rules.MoveValidIffLegal`) |
| Rules.PathEmptyForDoubleStep | src/pieces.rs:71-78 | for a two-file pawn move the path is empty exactly when the square directly ahead is empty |
| Rules.PawnMoveValidIffLegal | src/pieces.rs:56-104 | the pawn branch accepts exactly a forward step, a forward diagonal step onto an opposing piece, or a double step from the home file over an empty square |
| Rules.MoveValidIffLegal | src/pieces.rs:28-107 | is_move_valid holds exactly for the moves of the rule set: no friendly target, no null move, and the piece's displacement set or line shape with a clear path |
| Rules.FriendlyFireRejected | src/pieces.rs:29-32 | a target reported as holding the mover's colour is refused for every piece type |
| Rules.FriendlyOccupantRejected | src/pieces.rs:29-32 | when no two pieces share a square, any piece of the mover's colour on the target makes the move invalid |
| Rules.NullMoveRejected | src/pieces.rs:34-37 | moving to the piece's own square is never valid |
| Rules.KingMoves | src/pieces.rs:43 | a king move is valid exactly onto one of the eight neighbouring squares that holds no friendly piece |
| Rules.KnightMoves | src/pieces.rs:55 | a knight move is valid exactly for the eight (2,1)/(1,2) jumps onto a square with no friendly piece |
| Rules.KnightIgnoresOtherSquares | src/pieces.rs:55 | adding a piece anywhere off the target never changes a knight move's validity |
| Rules.SliderBlocked | src/pieces.rs:44-54 | for a rook, bishop or queen, any piece of either colour strictly between the squares makes the move invalid |
| Rules.RookMoves | src/pieces.rs:48-51 | a rook move is valid exactly along a row or column, with a clear path, onto a square with no friendly piece |
| Rules.BishopMoves | src/pieces.rs:52-54 | a bishop move is valid exactly along a diagonal, with a clear path, onto a square with no friendly piece |
| Rules.QueenMoves | src/pieces.rs:44-47 | a queen move is valid exactly along a row, column or diagonal, with a clear path, onto a square with no friendly piece |
| Rules.PawnMovesForward | src/pieces.rs:56-104 | every accepted White pawn move increases x by one or two, and every accepted Black pawn move decreases x by one or two |
| Rules.PawnDiagonalStep | src/pieces.rs:63-69 | a one-step diagonal-forward pawn move is valid exactly when an opposing piece is reported on the target |
| Rules.PawnSingleStep | src/pieces.rs:58-62 | a one-step straight pawn move is valid exactly when the target holds no friendly piece |
| Rules.PawnDoubleStep | src/pieces.rs:71-78 | a two-step pawn move is valid exactly from file 1 for White or file 6 for Black, over an empty square, onto a square with no friendly piece |
| Scenarios.StartingPieces | src/pieces.rs:324-484 | the opening layout has 32 pieces, all on the board and all on files 0, 1, 6 and 7 |
| Scenarios.PawnsStartOnHomeFile | src/pieces.rs:404-483 | every pawn of the opening layout stands on `HomeFile` of its colour, which is file 1 for White and file 6 for Black |
| Scenarios.StartingPiecesShareNoSquare | src/pieces.rs:324-484 | no two pieces of the opening layout share a square |
| Scenarios.OpeningPawnAdvances | src/pieces.rs:57-78 | in the opening position every White pawn may advance one or two files |
| Scenarios.OpeningKnightJumps | src/pieces.rs:55 | in the opening position the knight on (0,1) may jump over its pawns to (2,2) |
| Scenarios.OpeningRookBlocked | src/pieces.rs:48-51 | in the opening position the rook on (0,0) cannot pass the pawn in front of it |
| Scenarios.PawnCaptureScenario | src/pieces.rs:57-79 | a White pawn takes a Black piece diagonally forward, but not diagonally backward |
| Scenarios.RookBlockedScenario | src/pieces.rs:519-527 | a rook on (0,0) cannot pass its own pawn on (0,3) to reach (0,5) |
| Findings.PawnCapturesStraightAhead | src/pieces.rs:58-62 | as written, a White pawn on (1,3) may step onto a Black pawn on (2,3) |
| Findings.PawnDoubleStepCapturesStraightAhead | src/pieces.rs:95-102 | as written, a Black pawn on (6,0) may move two squares onto a White rook on (4,0) |
| Findings.IntendedPawnSingleStep | src/pieces.rs:58-62 | under the corrected rule, a one-step straight pawn move is valid exactly onto an empty square |
| Findings.IntendedPawnDoubleStep | src/pieces.rs:71-78 | under the corrected rule, a two-step pawn move is valid exactly from the home file with the square passed over and the target both empty |

## Findings

| source | as written | input that shows it | evidently intended | confidence | as-written member | corrected member |
|---|---|---|---|---|---|---|
| src/pieces.rs:58-62 | the straight one-step pawn move checks only that the target holds no friendly piece | White pawn on (1,3), Black pawn on (2,3), target (2,3): accepted | a pawn moves straight only onto an empty square, and captures only diagonally | high; not executed | Findings.PawnCapturesStraightAhead | Findings.IntendedPawnSingleStep |
| src/pieces.rs:95-102 | the two-step pawn move checks the square passed over, but for the target it checks only that no friendly piece is there | Black pawn on (6,0), White rook on (4,0), target (4,0): accepted | the two-step move needs both squares ahead empty | high; not executed | Findings.PawnDoubleStepCapturesStraightAhead | Findings.IntendedPawnDoubleStep |

In chess a pawn never captures straight ahead. The source handles capture in a separate
diagonal branch, commented as taking a piece, while the straight step is commented as
the normal move (src/pieces.rs:59, :63). So the straight branches are evidently meant as
plain advances. The code does not check that their target is empty, and
`Moves.IsMoveValid` follows the code. `Findings.IsMoveValidIntended` adds the
empty-target requirement for a pawn moving along its row. The lemmas about it prove the
intended single-step and double-step rules.

The rule one expects from chess is that no move lands on any piece of the mover's own
colour. The code looks only at the first piece of the snapshot on the target square, and
the model follows the code. `Rules.FriendlyOccupantRejected` shows that the two readings
agree when no two pieces share a square.

## Left out

- Creating entities, spawning meshes and loading assets (`spawn_*`, `create_pieces`).
  These are engine work. Only the opening layout is kept, as `Scenarios.StartingPieces`.
- `move_pieces`: it animates transforms with floating-point interpolation.
- `PiecesPlugin`, plus `src/main.rs`, `src/ui.rs` and `src/board.rs`: engine wiring,
  camera, lighting, meshes and UI text.
- The selection, turn and capture state machine. `src/board.rs` in this repository
  holds only mesh spawning, so that state machine is not part of this model.
- `u8`/`i8` widths: coordinates are unbounded integers. The on-board requirement of
  `Moves.IsMoveValid` keeps out the targets where the width would matter. Without it,
  a Black pawn on x = 6 would be accepted moving to x = 8.
