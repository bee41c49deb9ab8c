/** Piece::is_move_valid: whether a piece may move to a target square, given
    a snapshot of every live piece. */
module Moves {
  import opened Pieces
  import opened Path

  /** The file step a pawn of colour `c` advances by: White towards larger x,
      Black towards smaller x. */
  function Forward(c: PieceColor): (f: int)
    ensures f == 1 || f == -1
    ensures (f == 1) <==> c == White
  {
    if c == White then 1 else -1
  }

  /** The file a pawn of colour `c` may make its two-square move from. */
  function HomeFile(c: PieceColor): (h: int)
    ensures OnBoard((h, 0)) && OnBoard((h + 2 * Forward(c), 0))
  {
    if c == White then 1 else 6
  }

  /** The pawn rule: one square forward, one square diagonally forward onto
      an opposing piece, or two squares forward from the home file over an
      empty path. A piece on the target square is only checked for its
      colour, so a straight move onto an opposing piece is not refused here. */
  function PawnMoveValid(p: Piece, target: Square, pieces: seq<Piece>): (r: bool)
    ensures r ==> Abs(p.y - target.1) <= 1
    ensures r && OnBoard(target) ==>
      target.0 - p.x == Forward(p.color) || target.0 - p.x == 2 * Forward(p.color)
  {
    var xDiff := Abs(p.x - target.0);
    var yDiff := Abs(p.y - target.1);
    || (target.0 - p.x == Forward(p.color)
        && (yDiff == 0
            || (yDiff == 1 && ColorOnSquare(target, pieces) == Some(Opponent(p.color)))))
    || (p.x == HomeFile(p.color) && yDiff == 0 && xDiff == 2
        && IsPathEmpty(p.Pos(), target, pieces))
  }

  /** Piece::is_move_valid. The snapshot may contain the moving piece itself. */
  function IsMoveValid(p: Piece, target: Square, pieces: seq<Piece>): (r: bool)
    requires OnBoard(p.Pos()) && OnBoard(target)
    ensures r ==> target != p.Pos() && ColorOnSquare(target, pieces) != Some(p.color)
    ensures r && Abs(p.x - target.0) + Abs(p.y - target.1) > 3 ==>
      p.pieceType in {Rook, Bishop, Queen}
  {
    if ColorOnSquare(target, pieces) == Some(p.color) then false
    else if p.Pos() == target then false
    else
      var xDiff := Abs(p.x - target.0);
      var yDiff := Abs(p.y - target.1);
      match p.pieceType
      case King => xDiff <= 1 && yDiff <= 1
      case Queen =>
        IsPathEmpty(p.Pos(), target, pieces) && (xDiff == yDiff || xDiff == 0 || yDiff == 0)
      case Rook => (xDiff == 0 || yDiff == 0) && IsPathEmpty(p.Pos(), target, pieces)
      case Bishop => xDiff == yDiff && IsPathEmpty(p.Pos(), target, pieces)
      case Knight => (xDiff == 2 && yDiff == 1) || (xDiff == 1 && yDiff == 2)
      case Pawn => PawnMoveValid(p, target, pieces)
  }
}
